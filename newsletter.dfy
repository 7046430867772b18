/** The `newsletter_subscribers` table: sign-up, the token-gated public
    unsubscribe link and the admin unsubscribe. */
module Newsletter {
  import opened Js
  import opened Db

  datatype SubStatus = Active | Unsubscribed

  datatype Subscriber = Subscriber(
    id: nat,
    fullName: string,
    email: string,
    frequency: string,
    topics: string,
    status: SubStatus,
    subscribedAt: Time,
    updatedAt: Option<Time>)

  /** The `topics` body field: a JSON array of strings, or any other value. */
  datatype Topics = TopicList(items: seq<string>) | TopicValue(value: Field)

  const DefaultFrequency := "weekly"
  const TopicSeparator := ", "

  /** `Array.isArray(topics) ? topics.join(", ") : (topics || "")`. */
  function TopicsText(t: Topics): string {
    match t
    case TopicList(items) => Join(items, TopicSeparator)
    case TopicValue(v) => OrElse(v, "")
  }

  /** An array is joined with ", ", another value is kept, and a missing
      one becomes empty. */
  lemma TopicsTextCases(a: string, b: string, v: string)
    ensures TopicsText(TopicList([a, b])) == a + ", " + b
    ensures TopicsText(TopicList([])) == ""
    ensures v != "" ==> TopicsText(TopicValue(Some(v))) == v
    ensures TopicsText(TopicValue(None)) == "" && TopicsText(TopicValue(Some(""))) == ""
  {
    assert [a, b][1..] == [b];
    assert Join([a, b], TopicSeparator) == a + TopicSeparator + Join([b], TopicSeparator);
  }

  /** A keyed message authentication code (HMAC-SHA256 in hex): key, then message. */
  type Mac = (string, string) -> string

  /** `generateUnsubToken(email)`: the MAC of the lower-cased email under the
      unsubscribe secret. */
  function UnsubToken(mac: Mac, secret: string, email: string): (t: string)
    ensures forall e :: Lower(e) == Lower(email) ==> t == mac(secret, Lower(e))
  {
    mac(secret, Lower(email))
  }

  /** The token depends on the email only through its lower-case form. */
  lemma TokenIgnoresCase(mac: Mac, secret: string, a: string, b: string)
    requires Lower(a) == Lower(b)
    ensures UnsubToken(mac, secret, a) == UnsubToken(mac, secret, b)
  {
  }

  datatype LinkCheck = MissingParams | BadToken | TokenOk

  /** The two checks of `GET /unsubscribe` that come before the table. */
  function CheckLink(mac: Mac, secret: string, email: Field, token: Field): (r: LinkCheck)
    ensures r == MissingParams <==> !Truthy(email) || !Truthy(token)
    ensures r == TokenOk ==> UnsubToken(mac, secret, email.value) == token.value
    ensures r == BadToken ==> UnsubToken(mac, secret, email.value) != token.value
  {
    if !Truthy(email) || !Truthy(token) then MissingParams
    else if token.value != UnsubToken(mac, secret, email.value) then BadToken
    else TokenOk
  }

  /** A link whose email differs only in letter case passes the same token
      check; any other token for that email is refused. */
  lemma LinkCaseAndTamper(mac: Mac, secret: string, email: string, other: string, token: string)
    requires email != "" && other != "" && Lower(email) == Lower(other)
    requires token != "" && token == UnsubToken(mac, secret, email)
    ensures CheckLink(mac, secret, Some(other), Some(token)) == TokenOk
    ensures forall t :: t != "" && t != token ==> CheckLink(mac, secret, Some(email), Some(t)) == BadToken
  {
    TokenIgnoresCase(mac, secret, email, other);
  }

  /** A row `WHERE email = ?` selects. */
  predicate EmailMatches(ci: bool, s: Subscriber, email: string) {
    Key(ci, s.email) == Key(ci, email)
  }

  /** The number of rows `WHERE email = ?` selects (mysql's `affectedRows`
      counts matched rows). */
  function MatchCount(ci: bool, rows: seq<Subscriber>, email: string): (n: nat)
    ensures n <= |rows|
  {
    if rows == [] then 0
    else
      MatchCount(ci, rows[..|rows| - 1], email) +
      (if EmailMatches(ci, rows[|rows| - 1], email) then 1 else 0)
  }

  lemma MatchCountStep(ci: bool, rows: seq<Subscriber>, email: string, i: nat)
    requires i < |rows|
    ensures MatchCount(ci, rows[..i + 1], email) ==
      MatchCount(ci, rows[..i], email) + (if EmailMatches(ci, rows[i], email) then 1 else 0)
  {
    assert rows[..i + 1][..i] == rows[..i];
  }

  /** The table after `UPDATE ... SET status = 'unsubscribed', updated_at =
      NOW() WHERE email = ?`. */
  function AfterUnsubscribe(ci: bool, rows: seq<Subscriber>, email: string, now: Time): (r: seq<Subscriber>)
    ensures |r| == |rows|
  {
    seq(|rows|, i requires 0 <= i < |rows| =>
      if EmailMatches(ci, rows[i], email) then rows[i].(status := Unsubscribed, updatedAt := Some(now))
      else rows[i])
  }

  /** The matching rows end up unsubscribed, and every other row and every
      other field is unchanged. */
  lemma AfterUnsubscribeEffect(ci: bool, rows: seq<Subscriber>, email: string, now: Time)
    ensures var r := AfterUnsubscribe(ci, rows, email, now);
      forall i :: 0 <= i < |rows| ==>
        (EmailMatches(ci, rows[i], email) ==>
          r[i].status == Unsubscribed && r[i].updatedAt == Some(now) &&
          r[i] == rows[i].(status := r[i].status, updatedAt := r[i].updatedAt)) &&
        (!EmailMatches(ci, rows[i], email) ==> r[i] == rows[i])
  {
  }

  /** With unique emails, at most one row matches. */
  lemma {:induction false} AtMostOneMatch(ci: bool, rows: seq<Subscriber>, email: string)
    requires UniqueEmails(ci, rows)
    ensures MatchCount(ci, rows, email) <= 1
  {
    if rows != [] {
      var init := rows[..|rows| - 1];
      AtMostOneMatch(ci, init, email);
      if EmailMatches(ci, rows[|rows| - 1], email) {
        NoMatch(ci, init, email, rows[|rows| - 1]);
      }
    }
  }

  lemma {:induction false} NoMatch(ci: bool, rows: seq<Subscriber>, email: string, s: Subscriber)
    requires forall i :: 0 <= i < |rows| ==> Key(ci, rows[i].email) != Key(ci, s.email)
    requires EmailMatches(ci, s, email)
    ensures MatchCount(ci, rows, email) == 0
  {
    if rows != [] {
      NoMatch(ci, rows[..|rows| - 1], email, s);
    }
  }

  lemma {:induction false} MatchCountPositive(ci: bool, rows: seq<Subscriber>, email: string, k: nat)
    requires k < |rows| && EmailMatches(ci, rows[k], email)
    ensures MatchCount(ci, rows, email) > 0
  {
    if k < |rows| - 1 {
      MatchCountPositive(ci, rows[..|rows| - 1], email, k);
    }
  }

  lemma KeepsEmailsAndIds(ci: bool, rows: seq<Subscriber>, email: string, now: Time)
    ensures var r := AfterUnsubscribe(ci, rows, email, now);
      forall i :: 0 <= i < |rows| ==> r[i].email == rows[i].email && r[i].id == rows[i].id
  {
  }

  ghost predicate UniqueEmails(ci: bool, rows: seq<Subscriber>) {
    forall i, j :: 0 <= i < j < |rows| ==> Key(ci, rows[i].email) != Key(ci, rows[j].email)
  }

  /** The table invariant: unique non-empty emails, and ids increasing in
      insertion order below the next id. */
  ghost predicate TableOk(ci: bool, rows: seq<Subscriber>, nextId: nat) {
    UniqueEmails(ci, rows) &&
    (forall i :: 0 <= i < |rows| ==> rows[i].email != "" && rows[i].id < nextId) &&
    (forall i, j :: 0 <= i < j < |rows| ==> rows[i].id < rows[j].id)
  }

  /** Unsubscribing keeps the table invariant. */
  lemma UnsubscribeKeepsTable(ci: bool, rows: seq<Subscriber>, email: string, now: Time, nextId: nat)
    requires TableOk(ci, rows, nextId)
    ensures TableOk(ci, AfterUnsubscribe(ci, rows, email, now), nextId)
  {
    KeepsEmailsAndIds(ci, rows, email, now);
  }

  datatype UnsubResult = BadRequest | Forbidden | NotFound | Done {
    function StatusCode(): nat {
      match this
      case BadRequest => 400
      case Forbidden => 403
      case NotFound => 404
      case Done => 200
    }
  }

  /** The response of `GET /unsubscribe?email=&token=` against the table. */
  function UnsubscribeResult(ci: bool, rows: seq<Subscriber>, mac: Mac, secret: string,
                             email: Field, token: Field): (r: UnsubResult)
    ensures r == BadRequest <==> !Truthy(email) || !Truthy(token)
    ensures r == Forbidden <==>
      Truthy(email) && Truthy(token) && token.value != UnsubToken(mac, secret, email.value)
    ensures r == NotFound <==>
      Truthy(email) && Truthy(token) && token.value == UnsubToken(mac, secret, email.value) &&
      forall i :: 0 <= i < |rows| ==> !EmailMatches(ci, rows[i], email.value)
  {
    match CheckLink(mac, secret, email, token)
    case MissingParams => BadRequest
    case BadToken => Forbidden
    case TokenOk =>
      if MatchCount(ci, rows, email.value) == 0 then
        NoMatchIffZero(ci, rows, email.value);
        NotFound
      else
        NoMatchIffZero(ci, rows, email.value);
        Done
  }

  /** The response of the admin `POST /api/newsletter/unsubscribe`. */
  function AdminUnsubscribeResult(ci: bool, rows: seq<Subscriber>, email: Field): (r: UnsubResult)
    ensures r != Forbidden
    ensures r == BadRequest <==> !Truthy(email)
    ensures r == NotFound <==> Truthy(email) && forall i :: 0 <= i < |rows| ==> !EmailMatches(ci, rows[i], email.value)
  {
    if !Truthy(email) then BadRequest
    else
      NoMatchIffZero(ci, rows, email.value);
      if MatchCount(ci, rows, email.value) == 0 then NotFound else Done
  }

  lemma NoMatchIffZero(ci: bool, rows: seq<Subscriber>, email: string)
    ensures MatchCount(ci, rows, email) == 0 <==>
      forall i :: 0 <= i < |rows| ==> !EmailMatches(ci, rows[i], email)
  {
    if MatchCount(ci, rows, email) == 0 {
      forall i | 0 <= i < |rows| ensures !EmailMatches(ci, rows[i], email) {
        if EmailMatches(ci, rows[i], email) {
          MatchCountPositive(ci, rows, email, i);
        }
      }
    } else {
      NonZeroHasMatch(ci, rows, email);
    }
  }

  lemma {:induction false} NonZeroHasMatch(ci: bool, rows: seq<Subscriber>, email: string)
    requires MatchCount(ci, rows, email) > 0
    ensures exists i :: 0 <= i < |rows| && EmailMatches(ci, rows[i], email)
  {
    var n := |rows| - 1;
    if !EmailMatches(ci, rows[n], email) {
      NonZeroHasMatch(ci, rows[..n], email);
      var i :| 0 <= i < n && EmailMatches(ci, rows[..n][i], email);
      assert rows[i] == rows[..n][i];
    }
  }

  datatype SubscribeOutcome = MissingFields | AlreadySubscribed | Subscribed(subscriberId: nat) {
    function StatusCode(): nat {
      if Subscribed? then 200 else 400
    }
  }

  class SubscriberStore {
    /** Whether the table's collation compares text case-insensitively. */
    const ci: bool
    var subs: seq<Subscriber>
    var nextId: nat

    /** Emails are non-empty and unique under the collation (the UNIQUE
        index); ids increase. */
    ghost predicate Valid()
      reads this
    {
      TableOk(ci, subs, nextId)
    }

    constructor (ci: bool)
      ensures Valid() && this.ci == ci && subs == [] && nextId == 1
    {
      this.ci := ci;
      subs := [];
      nextId := 1;
    }

    /** `POST /api/newsletter/subscribe`. */
    method Subscribe(fullName: Field, email: Field, frequency: Field, topics: Topics, now: Time)
      returns (r: SubscribeOutcome)
      requires Valid()
      modifies this
      ensures Valid()
      ensures r == MissingFields <==> !Truthy(fullName) || !Truthy(email)
      ensures r == AlreadySubscribed <==>
        Truthy(fullName) && Truthy(email) &&
        exists i :: 0 <= i < |old(subs)| && EmailMatches(ci, old(subs)[i], email.value)
      ensures !r.Subscribed? ==> subs == old(subs) && nextId == old(nextId)
      ensures r.Subscribed? ==>
        r.subscriberId == old(nextId) && nextId == old(nextId) + 1 &&
        subs == old(subs) + [Subscriber(old(nextId), fullName.value, email.value,
                                        OrElse(frequency, DefaultFrequency), TopicsText(topics),
                                        Active, now, None)]
    {
      if !Truthy(fullName) || !Truthy(email) {
        return MissingFields;
      }
      var taken := FindEmail(email.value);
      if taken {
        return AlreadySubscribed;
      }
      var s := Subscriber(nextId, fullName.value, email.value, OrElse(frequency, DefaultFrequency),
                          TopicsText(topics), Active, now, None);
      subs := subs + [s];
      nextId := nextId + 1;
      r := Subscribed(s.id);
    }

    /** The UNIQUE index lookup: is the email already present? */
    method FindEmail(email: string) returns (found: bool)
      ensures found <==> exists i :: 0 <= i < |subs| && EmailMatches(ci, subs[i], email)
    {
      found := false;
      var i := 0;
      while i < |subs|
        invariant 0 <= i <= |subs|
        invariant found <==> exists k :: 0 <= k < i && EmailMatches(ci, subs[k], email)
      {
        found := found || EmailMatches(ci, subs[i], email);
        i := i + 1;
      }
    }

    /** The shared UPDATE; returns the number of matched rows. */
    method MarkUnsubscribed(email: string, now: Time) returns (affected: nat)
      requires Valid()
      modifies this`subs
      ensures Valid()
      ensures affected == MatchCount(ci, old(subs), email)
      ensures subs == AfterUnsubscribe(ci, old(subs), email, now)
    {
      ghost var before := subs;
      ghost var after := AfterUnsubscribe(ci, before, email, now);
      affected := 0;
      var i := 0;
      while i < |subs|
        invariant 0 <= i <= |subs| == |before|
        invariant affected == MatchCount(ci, before[..i], email)
        invariant forall k :: 0 <= k < i ==> subs[k] == after[k]
        invariant forall k :: i <= k < |subs| ==> subs[k] == before[k]
      {
        MatchCountStep(ci, before, email, i);
        assert subs[i] == before[i];
        if EmailMatches(ci, subs[i], email) {
          subs := subs[i := subs[i].(status := Unsubscribed, updatedAt := Some(now))];
          affected := affected + 1;
        } else {
          assert subs[i] == after[i];
        }
        i := i + 1;
      }
      assert before[..i] == before;
      assert |subs| == |after| && forall k :: 0 <= k < |subs| ==> subs[k] == after[k];
      assert subs == after;
      UnsubscribeKeepsTable(ci, before, email, now, nextId);
    }

    /** `GET /unsubscribe?email=&token=`. */
    method Unsubscribe(mac: Mac, secret: string, email: Field, token: Field, now: Time)
      returns (r: UnsubResult)
      requires Valid()
      modifies this`subs
      ensures Valid()
      ensures r == UnsubscribeResult(ci, old(subs), mac, secret, email, token)
      ensures subs == if CheckLink(mac, secret, email, token) == TokenOk
                      then AfterUnsubscribe(ci, old(subs), email.value, now) else old(subs)
    {
      var check := CheckLink(mac, secret, email, token);
      if check == MissingParams {
        return BadRequest;
      }
      if check == BadToken {
        return Forbidden;
      }
      var affected := MarkUnsubscribed(email.value, now);
      r := if affected == 0 then NotFound else Done;
    }

    /** The admin `POST /api/newsletter/unsubscribe`. */
    method AdminUnsubscribe(email: Field, now: Time) returns (r: UnsubResult)
      requires Valid()
      modifies this`subs
      ensures Valid()
      ensures r == AdminUnsubscribeResult(ci, old(subs), email)
      ensures subs == if Truthy(email) then AfterUnsubscribe(ci, old(subs), email.value, now) else old(subs)
    {
      if !Truthy(email) {
        return BadRequest;
      }
      var affected := MarkUnsubscribed(email.value, now);
      r := if affected == 0 then NotFound else Done;
    }
  }

  /** Subscribing, re-subscribing, and following the emailed link twice. The
      second click finds the row again, since mysql reports matched rows. */
  method UnsubscribeScenario(mac: Mac, secret: string, now: Time)
    returns (first: SubscribeOutcome, again: SubscribeOutcome, click: UnsubResult, reclick: UnsubResult)
    requires mac(secret, "a@b") != ""
    ensures first.Subscribed? && again == AlreadySubscribed
    ensures click == Done && reclick == Done
  {
    var store := new SubscriberStore(false);
    var email := "a@b";
    first := store.Subscribe(Some("A"), Some(email), None, TopicValue(None), now);
    assert store.subs[0].email == email && |store.subs| == 1;
    assert EmailMatches(store.ci, store.subs[0], email);
    again := store.Subscribe(Some("A"), Some(email), None, TopicValue(None), now);
    var token := UnsubToken(mac, secret, email);
    assert Lower(email) == email by {
      assert |Lower(email)| == 3;
      assert Lower(email)[0] == 'a' && Lower(email)[1] == '@' && Lower(email)[2] == 'b';
    }
    assert CheckLink(mac, secret, Some(email), Some(token)) == TokenOk;
    MatchCountPositive(false, store.subs, email, 0);
    click := store.Unsubscribe(mac, secret, Some(email), Some(token), now);
    assert EmailMatches(store.ci, store.subs[0], email);
    MatchCountPositive(false, store.subs, email, 0);
    reclick := store.Unsubscribe(mac, secret, Some(email), Some(token), now);
  }
}
