/** The subscriber list of the newsletter broadcast sent after a blog post is
    published: every active subscriber, in table order, each with a personal
    unsubscribe link. */
module Broadcast {
  import opened Js
  import opened Db
  import opened UriComponent
  import opened Newsletter

  /** One element of the payload's `subscribers` array: the selected columns
      plus `unsubscribe_url`. */
  datatype Entry = Entry(
    id: nat,
    fullName: string,
    email: string,
    frequency: string,
    topics: string,
    unsubscribeUrl: string)

  /** `SELECT ... FROM newsletter_subscribers WHERE status = 'active'`, in table order. */
  function ActiveSubscribers(rows: seq<Subscriber>): (active: seq<Subscriber>)
    ensures |active| == CountActive(rows)
    ensures forall i :: 0 <= i < |active| ==> active[i].status == Active && active[i] in rows
  {
    if rows == [] then []
    else
      var init := ActiveSubscribers(rows[..|rows| - 1]);
      if rows[|rows| - 1].status == Active then init + [rows[|rows| - 1]] else init
  }

  /** The number of active rows. */
  function CountActive(rows: seq<Subscriber>): nat {
    if rows == [] then 0
    else CountActive(rows[..|rows| - 1]) + (if rows[|rows| - 1].status == Active then 1 else 0)
  }

  /** The query string of an unsubscribe link: `email=<encoded>&token=<token>`. */
  function LinkQuery(mac: Mac, secret: string, email: string): string {
    "email=" + EncodeURIComponent(email) + "&token=" + UnsubToken(mac, secret, email)
  }

  function UnsubscribeUrl(appUrl: string, mac: Mac, secret: string, email: string): string {
    appUrl + "/unsubscribe?" + LinkQuery(mac, secret, email)
  }

  function ToEntry(appUrl: string, mac: Mac, secret: string, s: Subscriber): Entry {
    Entry(s.id, s.fullName, s.email, s.frequency, s.topics,
          UnsubscribeUrl(appUrl, mac, secret, s.email))
  }

  /** The `subscribers` array of the broadcast; `None` when there are no
      active subscribers and the broadcast is skipped. */
  function BroadcastList(rows: seq<Subscriber>, appUrl: string, mac: Mac, secret: string)
    : (r: Option<seq<Entry>>)
    ensures r.None? <==> ActiveSubscribers(rows) == []
    ensures r.Some? ==> |r.value| == |ActiveSubscribers(rows)|
    ensures r.Some? ==> forall i :: 0 <= i < |r.value| ==>
      r.value[i] == ToEntry(appUrl, mac, secret, ActiveSubscribers(rows)[i])
  {
    var active := ActiveSubscribers(rows);
    if active == [] then None
    else Some(seq(|active|, i requires 0 <= i < |active| => ToEntry(appUrl, mac, secret, active[i])))
  }

  /** The number of active rows is the length of the active list, and it is
      zero exactly when no row is active. */
  lemma {:induction false} ActiveCount(rows: seq<Subscriber>)
    ensures |ActiveSubscribers(rows)| == CountActive(rows)
    ensures CountActive(rows) == 0 <==> forall i :: 0 <= i < |rows| ==> rows[i].status != Active
  {
    if rows != [] {
      var init := rows[..|rows| - 1];
      ActiveCount(init);
      if rows[|rows| - 1].status != Active && CountActive(init) == 0 {
        assert forall i :: 0 <= i < |init| ==> rows[i] == init[i];
      }
      if CountActive(init) != 0 {
        var i :| 0 <= i < |init| && init[i].status == Active;
        assert rows[i] == init[i];
      }
    }
  }

  /** One more row extends the active list by that row exactly when it is active. */
  lemma ActiveSnoc(rows: seq<Subscriber>)
    requires rows != []
    ensures var init := rows[..|rows| - 1]; var last := rows[|rows| - 1];
      ActiveSubscribers(rows) == ActiveSubscribers(init) + (if last.status == Active then [last] else []) &&
      |ActiveSubscribers(init)| == CountActive(init)
  {
    ActiveCount(rows[..|rows| - 1]);
  }

  /** Completeness and order: the active row at index `k` sits in the active
      list at position `CountActive(rows[..k])`, the number of active rows
      before it. */
  lemma {:induction false} ActiveAt(rows: seq<Subscriber>, k: nat)
    requires k < |rows| && rows[k].status == Active
    ensures CountActive(rows[..k]) < |ActiveSubscribers(rows)|
    ensures ActiveSubscribers(rows)[CountActive(rows[..k])] == rows[k]
    decreases |rows|
  {
    var n := |rows| - 1;
    var init := rows[..n];
    ActiveSnoc(rows);
    if k < n {
      ActiveAt(init, k);
      assert rows[..k] == init[..k];
      assert rows[k] == init[k];
    } else {
      assert rows[..k] == init;
    }
  }

  /** Soundness: position `i` of the active list holds the active row of
      rank `i`, so the list holds nothing but active rows, each once. */
  lemma {:induction false} ActiveFrom(rows: seq<Subscriber>, i: nat)
    requires i < |ActiveSubscribers(rows)|
    ensures exists k :: (0 <= k < |rows| && rows[k].status == Active &&
                         CountActive(rows[..k]) == i && ActiveSubscribers(rows)[i] == rows[k])
    decreases |rows|
  {
    var n := |rows| - 1;
    var init := rows[..n];
    ActiveSnoc(rows);
    if i < |ActiveSubscribers(init)| {
      ActiveFrom(init, i);
      var k :| 0 <= k < |init| && init[k].status == Active &&
        CountActive(init[..k]) == i && ActiveSubscribers(init)[i] == init[k];
      assert rows[..k] == init[..k];
      assert rows[k] == init[k];
    } else {
      assert rows[..n] == init;
      assert rows[n].status == Active && ActiveSubscribers(rows)[i] == rows[n];
    }
  }

  /** The broadcast has an entry for every active subscriber, at that
      subscriber's rank among the active rows, carrying its columns and its
      unsubscribe link. */
  lemma BroadcastCoversActive(rows: seq<Subscriber>, appUrl: string, mac: Mac, secret: string, k: nat)
    requires k < |rows| && rows[k].status == Active
    ensures BroadcastList(rows, appUrl, mac, secret).Some?
    ensures var r := BroadcastList(rows, appUrl, mac, secret).value;
      var i := CountActive(rows[..k]);
      i < |r| &&
      r[i] == Entry(rows[k].id, rows[k].fullName, rows[k].email, rows[k].frequency,
                    rows[k].topics, UnsubscribeUrl(appUrl, mac, secret, rows[k].email))
  {
    ActiveAt(rows, k);
  }

  /** Every entry belongs to an active subscriber of the table, the one of
      that rank, with its columns and its unsubscribe link. */
  lemma BroadcastOnlyActive(rows: seq<Subscriber>, appUrl: string, mac: Mac, secret: string, i: nat)
    requires BroadcastList(rows, appUrl, mac, secret).Some?
    requires i < |BroadcastList(rows, appUrl, mac, secret).value|
    ensures var e := BroadcastList(rows, appUrl, mac, secret).value[i];
      exists k :: 0 <= k < |rows| && rows[k].status == Active && CountActive(rows[..k]) == i &&
        e == Entry(rows[k].id, rows[k].fullName, rows[k].email, rows[k].frequency,
                   rows[k].topics, UnsubscribeUrl(appUrl, mac, secret, rows[k].email))
  {
    ActiveFrom(rows, i);
  }

  /** The query-string parser: the decoded value of the first `name=value`
      pair of `query` (absent when there is none or it does not decode). */
  function QueryValue(query: string, name: string): (r: Field)
    ensures NoPairNamed(Split(query, '&'), name) ==> r == None
    ensures forall i :: FirstPairNamed(Split(query, '&'), name, i) ==>
      r == DecodeURIComponent(PairValue(Split(query, '&')[i]))
  {
    var pairs := Split(query, '&');
    FirstValueIsFirstPair(pairs, name);
    FirstValue(pairs, name)
  }

  predicate NoPairNamed(pairs: seq<string>, name: string) {
    forall i :: 0 <= i < |pairs| ==> PairName(pairs[i]) != Some(name)
  }

  /** Pair `i` is the first pair named `name`. */
  predicate FirstPairNamed(pairs: seq<string>, name: string, i: int) {
    0 <= i < |pairs| && PairName(pairs[i]) == Some(name) &&
    forall j :: 0 <= j < i ==> PairName(pairs[j]) != Some(name)
  }

  /** The name of a `name=value` pair: the text before its first `=`. */
  function PairName(p: string): Option<string> {
    var k := IndexOf(p, '=');
    if k < |p| then Some(p[..k]) else None
  }

  /** The value of a pair: the text after its first `=`. */
  function PairValue(p: string): string
    requires PairName(p).Some?
  {
    p[IndexOf(p, '=') + 1..]
  }

  function FirstValue(pairs: seq<string>, name: string): Field {
    if pairs == [] then None
    else if PairName(pairs[0]) == Some(name) then DecodeURIComponent(PairValue(pairs[0]))
    else FirstValue(pairs[1..], name)
  }

  /** The parser reads the value of the first pair with that name; with no
      such pair, the name is absent. */
  lemma {:induction false} FirstValueIsFirstPair(pairs: seq<string>, name: string)
    ensures NoPairNamed(pairs, name) ==> FirstValue(pairs, name) == None
    ensures forall i :: FirstPairNamed(pairs, name, i) ==>
      FirstValue(pairs, name) == DecodeURIComponent(PairValue(pairs[i]))
  {
    if pairs != [] {
      var rest := pairs[1..];
      FirstValueIsFirstPair(rest, name);
      forall i | FirstPairNamed(pairs, name, i)
        ensures FirstValue(pairs, name) == DecodeURIComponent(PairValue(pairs[i]))
      {
        if i > 0 {
          assert rest[i - 1] == pairs[i];
          assert forall j :: 0 <= j < i - 1 ==> rest[j] == pairs[j + 1];
          assert FirstPairNamed(rest, name, i - 1);
        }
      }
      if NoPairNamed(pairs, name) {
        assert forall i :: 0 <= i < |rest| ==> rest[i] == pairs[i + 1];
        assert NoPairNamed(rest, name);
      }
    }
  }

  /** The shape of `.digest("hex")`: 64 lower-case hex digits. */
  predicate HexDigest(t: string) {
    |t| == 64 && forall i :: 0 <= i < |t| ==> ('0' <= t[i] <= '9') || ('a' <= t[i] <= 'f')
  }

  lemma {:induction false} SplitTwo(a: string, b: string)
    requires '&' !in a && '&' !in b
    ensures Split(a + "&" + b, '&') == [a, b]
  {
    var s := a + "&" + b;
    assert s[|a|] == '&';
    assert forall i :: 0 <= i < |a| ==> s[i] == a[i];
    assert IndexOf(s, '&') == |a|;
    assert s[|a| + 1..] == b;
    assert s[..|a|] == a;
  }

  lemma PairParts(name: string, v: string)
    requires forall i :: 0 <= i < |name| ==> name[i] != '='
    ensures var p := name + "=" + v;
      IndexOf(p, '=') == |name| && p[..|name|] == name && p[|name| + 1..] == v
  {
    var p := name + "=" + v;
    assert p[|name|] == '=';
    assert forall i :: 0 <= i < |name| ==> p[i] == name[i];
  }

  /** A leading pair named `name` gives its decoded value. */
  lemma FirstPairValue(name: string, v: string, rest: seq<string>)
    requires forall i :: 0 <= i < |name| ==> name[i] != '='
    ensures FirstValue([name + "=" + v] + rest, name) == DecodeURIComponent(v)
  {
    PairParts(name, v);
    assert ([name + "=" + v] + rest)[0] == name + "=" + v;
  }

  /** A leading pair with another name is passed over. */
  lemma SkipPair(other: string, v: string, rest: seq<string>, name: string)
    requires forall i :: 0 <= i < |other| ==> other[i] != '='
    requires other != name
    ensures FirstValue([other + "=" + v] + rest, name) == FirstValue(rest, name)
  {
    PairParts(other, v);
    assert ([other + "=" + v] + rest)[0] == other + "=" + v;
    assert ([other + "=" + v] + rest)[1..] == rest;
  }

  /** A query of two pairs `email=x&token=y`, where neither value holds an
      `&`, gives back each value decoded. */
  lemma TwoPairs(x: string, y: string)
    requires '&' !in x && '&' !in y
    ensures QueryValue("email=" + x + "&token=" + y, "email") == DecodeURIComponent(x)
    ensures QueryValue("email=" + x + "&token=" + y, "token") == DecodeURIComponent(y)
  {
    QuerySplit(x, y);
    PairValues(x, y);
  }

  lemma QuerySplit(x: string, y: string)
    requires '&' !in x && '&' !in y
    ensures Split("email=" + x + "&token=" + y, '&') == ["email=" + x, "token=" + y]
  {
    SplitTwo("email=" + x, "token=" + y);
    QueryRegroup(x, y);
  }

  lemma QueryRegroup(x: string, y: string)
    ensures "email=" + x + "&token=" + y == ("email=" + x) + "&" + ("token=" + y)
  {
    assert "&token=" == "&" + "token=";
  }

  lemma PairValues(x: string, y: string)
    ensures FirstValue(["email=" + x, "token=" + y], "email") == DecodeURIComponent(x)
    ensures FirstValue(["email=" + x, "token=" + y], "token") == DecodeURIComponent(y)
  {
    var a := "email=" + x;
    var b := "token=" + y;
    assert "email" + "=" + x == a && "token" + "=" + y == b;
    assert [a, b] == [a] + [b] && [b] == [b] + [];
    FirstPairValue("email", x, [b]);
    SkipPair("email", x, [b], "token");
    FirstPairValue("token", y, []);
  }

  lemma HexHasNoSeparators(t: string)
    requires HexDigest(t)
    ensures forall i :: 0 <= i < |t| ==> t[i] != '&' && t[i] != '%'
  {
  }

  /** The link's query string carries the subscriber's email and token, and
      the parser reads both back. */
  lemma LinkQueryParses(mac: Mac, secret: string, email: string)
    requires HexDigest(mac(secret, Lower(email)))
    ensures QueryValue(LinkQuery(mac, secret, email), "email") == Some(email)
    ensures QueryValue(LinkQuery(mac, secret, email), "token") == Some(UnsubToken(mac, secret, email))
  {
    var enc := EncodeURIComponent(email);
    var tok := UnsubToken(mac, secret, email);
    EncodedIsQuerySafe(email);
    HexHasNoSeparators(tok);
    assert '&' !in enc && '&' !in tok;
    TwoPairs(enc, tok);
    EncodeDecodeRoundTrip(email);
  }

  /** Following the link of any broadcast entry unsubscribes that
      subscriber: the parsed email and token pass `GET /unsubscribe`, and
      the row is found. */
  lemma BroadcastLinkUnsubscribes(ci: bool, rows: seq<Subscriber>, appUrl: string,
                                  mac: Mac, secret: string, i: nat)
    requires forall k :: 0 <= k < |rows| ==> rows[k].email != ""
    requires forall m :: HexDigest(mac(secret, m))
    requires BroadcastList(rows, appUrl, mac, secret).Some?
    requires i < |BroadcastList(rows, appUrl, mac, secret).value|
    ensures var e := BroadcastList(rows, appUrl, mac, secret).value[i];
      var q := LinkQuery(mac, secret, e.email);
      e.unsubscribeUrl == appUrl + "/unsubscribe?" + q &&
      UnsubscribeResult(ci, rows, mac, secret, QueryValue(q, "email"), QueryValue(q, "token")) == Done
  {
    var e := BroadcastList(rows, appUrl, mac, secret).value[i];
    BroadcastOnlyActive(rows, appUrl, mac, secret, i);
    var k :| 0 <= k < |rows| && rows[k].status == Active && rows[k].email == e.email;
    LinkQueryParses(mac, secret, e.email);
    assert EmailMatches(ci, rows[k], e.email);
  }
}
