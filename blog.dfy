/** Blog posts: publishing one (`POST /api/blogs/post`) and the plain-text
    excerpt the post page puts in its description tags. */
module Blog {
  import opened Js

  /** `s.replace(/<[^>]*>/g, '')`. At a `<` with a `>` somewhere after it,
      the match runs to the first such `>` and is dropped; a `<` with no
      `>` after it is not the start of a match and is kept. */
  function StripTags(s: string): (r: string)
    ensures |r| <= |s|
    decreases |s|
  {
    if s == [] then []
    else if s[0] == '<' && IndexOf(s[1..], '>') < |s[1..]| then
      StripTags(s[IndexOf(s[1..], '>') + 2..])
    else [s[0]] + StripTags(s[1..])
  }

  const ExcerptLength := 160

  /** `content.replace(/<[^>]*>/g, '').substring(0, 160)`. */
  function Excerpt(content: string): (r: string)
    ensures |r| <= ExcerptLength
  {
    var t := StripTags(content);
    if |t| <= ExcerptLength then t else t[..ExcerptLength]
  }

  /** No `<` in `s` has a `>` anywhere after it: nothing the pattern could match. */
  predicate NoTag(s: string) {
    forall i, j :: 0 <= i < j < |s| && s[i] == '<' ==> s[j] != '>'
  }

  /** Every character of the stripped text comes from the input. */
  lemma {:induction false} StripTagsChars(s: string)
    ensures forall c :: c in StripTags(s) ==> c in s
    decreases |s|
  {
    if s != [] {
      if s[0] == '<' && IndexOf(s[1..], '>') < |s[1..]| {
        var rest := s[IndexOf(s[1..], '>') + 2..];
        StripTagsChars(rest);
        assert forall c :: c in rest ==> c in s;
      } else {
        StripTagsChars(s[1..]);
        assert forall c :: c in s[1..] ==> c in s;
      }
    }
  }

  lemma NoTagCons(c: char, t: string)
    requires NoTag(t)
    requires c == '<' ==> '>' !in t
    ensures NoTag([c] + t)
  {
    var s := [c] + t;
    forall i, j | 0 <= i < j < |s| && s[i] == '<'
      ensures s[j] != '>'
    {
      assert s[j] == t[j - 1];
      if i > 0 {
        assert s[i] == t[i - 1];
      }
    }
  }

  /** After the replacement no `<` is followed anywhere later by `>`. */
  lemma {:induction false} StripTagsLeavesNoTag(s: string)
    ensures NoTag(StripTags(s))
    decreases |s|
  {
    if s != [] {
      if s[0] == '<' && IndexOf(s[1..], '>') < |s[1..]| {
        StripTagsLeavesNoTag(s[IndexOf(s[1..], '>') + 2..]);
      } else {
        StripTagsLeavesNoTag(s[1..]);
        if s[0] == '<' {
          StripTagsChars(s[1..]);
        }
        NoTagCons(s[0], StripTags(s[1..]));
      }
    }
  }

  lemma NoTagTail(s: string)
    requires s != [] && NoTag(s)
    ensures NoTag(s[1..])
    ensures s[0] == '<' ==> IndexOf(s[1..], '>') == |s[1..]|
  {
    assert forall j :: 1 <= j < |s| ==> s[1..][j - 1] == s[j];
  }

  /** A string with nothing to match is left as it is. */
  lemma {:induction false} StripTagsKeepsNoTag(s: string)
    requires NoTag(s)
    ensures StripTags(s) == s
    decreases |s|
  {
    if s != [] {
      NoTagTail(s);
      StripTagsKeepsNoTag(s[1..]);
    }
  }

  /** The replacement leaves a string unchanged exactly when nothing in it
      matches; hence stripping twice is stripping once. */
  lemma StripTagsFixedIff(s: string)
    ensures StripTags(s) == s <==> NoTag(s)
    ensures StripTags(StripTags(s)) == StripTags(s)
  {
    StripTagsLeavesNoTag(s);
    StripTagsKeepsNoTag(StripTags(s));
    if NoTag(s) {
      StripTagsKeepsNoTag(s);
    }
  }

  /** A tag between tag-free text is dropped whole, with its contents. */
  lemma StripsOneTag(before: string, inner: string, after: string)
    requires '<' !in before && '>' !in inner
    ensures StripTags(before + "<" + inner + ">" + after) == before + StripTags(after)
  {
    var s := "<" + inner + ">" + after;
    StripPrefix(before, s);
    StripsLeadingTag(inner, after);
    assert before + "<" + inner + ">" + after == before + s;
  }

  lemma StripsLeadingTag(inner: string, after: string)
    requires '>' !in inner
    ensures StripTags("<" + inner + ">" + after) == StripTags(after)
  {
    var s := "<" + inner + ">" + after;
    var t := inner + ">" + after;
    assert s[1..] == t;
    assert t[|inner|] == '>';
    assert forall i :: 0 <= i < |inner| ==> t[i] == inner[i];
    assert IndexOf(t, '>') == |inner|;
    assert s[|inner| + 2..] == after;
  }

  lemma {:induction false} StripPrefix(before: string, rest: string)
    requires '<' !in before
    ensures StripTags(before + rest) == before + StripTags(rest)
  {
    if before != [] {
      assert before[0] in before;
      assert forall c :: c in before[1..] ==> c in before;
      StripPrefix(before[1..], rest);
      assert (before + rest)[0] == before[0];
      assert (before + rest)[1..] == before[1..] + rest;
      assert StripTags(before + rest) == [before[0]] + StripTags(before[1..] + rest);
      assert [before[0]] + before[1..] == before;
      assert [before[0]] + (before[1..] + StripTags(rest)) == before + StripTags(rest);
    } else {
      assert before + rest == rest;
    }
  }

  /** The excerpt: at most 160 characters, with no `<` followed by `>`; and
      for text without `<` it is the text's first 160 characters. */
  lemma ExcerptFacts(content: string)
    ensures |Excerpt(content)| <= 160
    ensures NoTag(Excerpt(content))
    ensures '<' !in content ==>
      Excerpt(content) == content[..if |content| <= 160 then |content| else 160]
  {
    var t := StripTags(content);
    StripTagsLeavesNoTag(content);
    if |t| > ExcerptLength {
      assert forall i :: 0 <= i < ExcerptLength ==> t[..ExcerptLength][i] == t[i];
    }
    if '<' !in content {
      StripTagsKeepsNoTag(content);
    }
  }

  /** A stored post. */
  datatype Post = Post(
    id: nat,
    title: string,
    content: string,
    author: string,
    imageUrl: Option<string>,
    referenceLink: Option<string>,
    category: Option<string>,
    njLink: Option<string>)

  datatype PublishOutcome = MissingFields | EmptyContent | Published(blogId: nat) {
    function StatusCode(): nat {
      if Published? then 200 else 400
    }
  }

  /** The `blogs` table. */
  class BlogStore {
    var posts: seq<Post>
    var nextId: nat

    /** Ids increase in insertion order, all below the next id, so no two
        posts share one. */
    ghost predicate Valid()
      reads this
    {
      (forall i :: 0 <= i < |posts| ==> posts[i].id < nextId) &&
      (forall i, j :: 0 <= i < j < |posts| ==> posts[i].id < posts[j].id)
    }

    constructor()
      ensures Valid() && posts == [] && nextId == 1
    {
      posts := [];
      nextId := 1;
    }

    /** `POST /api/blogs/post`, with `sanitize` the HTML sanitiser under the
        handler's allow-list of tags and attributes. */
    method Publish(sanitize: string -> string, title: Field, content: Field, imageUrl: Field,
                   referenceLink: Field, category: Field, njLink: Field) returns (r: PublishOutcome)
      requires Valid()
      modifies this
      ensures Valid()
      ensures r == MissingFields <==> !Truthy(title) || !Truthy(content)
      ensures r == EmptyContent <==>
        Truthy(title) && Truthy(content) &&
        forall i :: 0 <= i < |sanitize(content.value)| ==> IsSpace(sanitize(content.value)[i])
      ensures !r.Published? ==> posts == old(posts) && nextId == old(nextId)
      ensures r.Published? ==>
        r.blogId == old(nextId) && nextId == old(nextId) + 1 &&
        posts == old(posts) + [Post(old(nextId), title.value, sanitize(content.value), "Admin",
                                    OrNull(imageUrl), OrNull(referenceLink), OrNull(category), OrNull(njLink))]
    {
      if !Truthy(title) || !Truthy(content) {
        return MissingFields;
      }
      var clean := sanitize(content.value);
      TrimEmptyIff(clean);
      if Trim(clean) == "" {
        return EmptyContent;
      }
      posts := posts + [Post(nextId, title.value, clean, "Admin",
                             OrNull(imageUrl), OrNull(referenceLink), OrNull(category), OrNull(njLink))];
      r := Published(nextId);
      nextId := nextId + 1;
    }
  }
}
