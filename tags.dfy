/** The comma-separated tag fields of the pages, and the tag part of their
    search predicates. The notes and scripts pages parse with
    `.split(',').map(t => t.trim()).filter(Boolean)`
    (client/src/pages/notes.tsx:45, client/src/pages/scripts.tsx:52); their
    editors show existing tags as `tags.join(', ')`. */
module Tags {
  import opened Collections
  import opened Text

  /** A trimmed character never brings back a character the piece did not have. */
  lemma TrimKeepsOut(p: string, c: char)
    requires c !in p
    ensures c !in Trim(p)
  {
    if c in Trim(p) {
      TrimChars(p, c);
    }
  }

  /** `s.split(',').map(t => t.trim())`: one trimmed piece per comma-separated
      field, empty pieces included. */
  function SplitTrimmed(s: string): (r: seq<string>)
    ensures |r| == |Split(s, ',')| == multiset(s)[','] + 1
    ensures forall i :: 0 <= i < |r| ==> r[i] == Trim(Split(s, ',')[i])
    ensures forall t :: t in r ==> IsTrimmed(t) && ',' !in t
  {
    var ps := Split(s, ',');
    SplitCount(s, ',');
    var r := seq(|ps|, i requires 0 <= i < |ps| => Trim(ps[i]));
    assert forall i :: 0 <= i < |ps| ==> ',' !in r[i] by {
      forall i | 0 <= i < |ps| ensures ',' !in r[i] {
        assert ps[i] in ps;
        TrimKeepsOut(ps[i], ',');
      }
    }
    r
  }

  /** `Boolean` as a filter on strings: the empty string is dropped. */
  predicate NonEmpty(t: string) { t != "" }

  /** The tag list a saved note or script gets: trimmed, non-empty, free of
      commas, in the order typed; every non-empty trimmed piece is kept. */
  function ParseTagList(s: string): (r: seq<string>)
    ensures forall t :: t in r ==> t != "" && IsTrimmed(t) && ',' !in t
    ensures forall t :: t in SplitTrimmed(s) && t != "" ==> t in r
    ensures forall t :: multiset(r)[t] == if t != "" then multiset(SplitTrimmed(s))[t] else 0
    ensures IsSubsequence(r, SplitTrimmed(s))
  {
    var ts := SplitTrimmed(s);
    KeepNonEmpty(ts);
    Keep(ts, NonEmpty)
  }

  /** `Keep` with `NonEmpty`, stated with `t != ""` in place of the predicate. */
  lemma KeepNonEmpty(ts: seq<string>)
    ensures forall t :: t in Keep(ts, NonEmpty) <==> t in ts && t != ""
    ensures forall t :: multiset(Keep(ts, NonEmpty))[t] == if t != "" then multiset(ts)[t] else 0
    ensures IsSubsequence(Keep(ts, NonEmpty), ts)
  {
    KeepCounts(ts, NonEmpty);
    KeepOrder(ts, NonEmpty);
  }

  /** A tag that an editor can show and read back unchanged. */
  predicate IsCleanTag(t: string)
  {
    t != "" && IsTrimmed(t) && ',' !in t
  }

  /** The pieces of `tags.join(', ')` split at the commas: the first tag, then
      each later tag behind the one space of the separator. */
  function Spaced(tags: seq<string>): (r: seq<string>)
    ensures |r| == |tags|
  {
    seq(|tags|, i requires 0 <= i < |tags| => if i == 0 then tags[0] else " " + tags[i])
  }

  lemma JoinCommaSpace(head: string, tail: seq<string>)
    requires |tail| >= 1
    ensures Join([head] + tail, ", ") == head + ([','] + (" " + Join(tail, ", ")))
  {
    var ps := [head] + tail;
    var j := Join(tail, ", ");
    assert ps[0] == head && ps[1..] == tail && |ps| >= 2;
    assert Join(ps, ", ") == head + ", " + j;
    assert ", " == [','] + " ";
    Regroup(head, [','], " ", j);
  }

  lemma Regroup(h: string, x: string, y: string, j: string)
    ensures h + (x + y) + j == h + (x + (y + j))
  {
    assert (x + y) + j == x + (y + j);
  }

  /** A comma and a space after a comma-free piece: the comma cuts, the space
      stays on the next piece. */
  lemma SplitCommaSpace(head: string, j: string)
    requires ',' !in head
    ensures Split(head + ([','] + (" " + j)), ',')
         == [head] + ([" " + Split(j, ',')[0]] + Split(j, ',')[1..])
  {
    var u := Split(j, ',');
    var v := Split(" " + j, ',');
    SplitPrefix(" ", j, ',');
    var w := Split([','] + (" " + j), ',');
    SplitAtSeparator(" " + j, ',');
    SplitPrefix(head, [','] + (" " + j), ',');
    assert head + "" == head;
    assert w[1..] == v;
  }

  /** One tag in front: the comma splits it off and leaves the space on the next piece. */
  lemma CommaSpaceStep(head: string, tail: seq<string>)
    requires ',' !in head && |tail| >= 1
    ensures Split(Join([head] + tail, ", "), ',')
         == [head] + ([" " + Split(Join(tail, ", "), ',')[0]] + Split(Join(tail, ", "), ',')[1..])
  {
    JoinCommaSpace(head, tail);
    SplitCommaSpace(head, Join(tail, ", "));
  }

  lemma SpacedStep(tags: seq<string>)
    requires |tags| >= 2
    ensures Spaced(tags) == [tags[0]] + ([" " + Spaced(tags[1..])[0]] + Spaced(tags[1..])[1..])
  {
    var u := Spaced(tags[1..]);
    var r := [tags[0]] + ([" " + u[0]] + u[1..]);
    assert |r| == |tags|;
    forall i | 0 <= i < |tags| ensures Spaced(tags)[i] == r[i] {
      if i >= 2 {
        assert r[i] == u[i - 1];
      }
    }
  }

  lemma {:induction false} SplitCommaSpaceJoin(tags: seq<string>)
    requires |tags| >= 1
    requires forall t :: t in tags ==> ',' !in t
    ensures Split(Join(tags, ", "), ',') == Spaced(tags)
  {
    if |tags| == 1 {
      SplitPrefix(tags[0], "", ',');
      assert tags[0] + "" == tags[0];
      assert Spaced(tags) == [tags[0]];
    } else {
      var rest := tags[1..];
      assert forall t :: t in rest ==> t in tags;
      SplitCommaSpaceJoin(rest);
      assert tags[0] in tags;
      assert [tags[0]] + rest == tags;
      CommaSpaceStep(tags[0], rest);
      SpacedStep(tags);
    }
  }

  /** Trimming the spaced pieces of clean tags gives the tags back. */
  lemma TrimSpaced(tags: seq<string>)
    requires forall t :: t in tags ==> IsCleanTag(t)
    ensures forall i :: 0 <= i < |tags| ==> Trim(Spaced(tags)[i]) == tags[i]
  {
    forall i | 0 <= i < |tags| ensures Trim(Spaced(tags)[i]) == tags[i] {
      assert tags[i] in tags;
      if i > 0 {
        TrimAfterSpace(" ", tags[i]);
      }
    }
  }

  /** Clean tags joined with `", "` split and trim back to themselves. */
  lemma SplitTrimmedJoin(tags: seq<string>)
    requires |tags| >= 1
    requires forall t :: t in tags ==> IsCleanTag(t)
    ensures SplitTrimmed(Join(tags, ", ")) == tags
  {
    var s := Join(tags, ", ");
    SplitCommaSpaceJoin(tags);
    TrimSpaced(tags);
    TrimmedPieces(Split(s, ','), SplitTrimmed(s), tags);
  }

  lemma TrimmedPieces(ps: seq<string>, st: seq<string>, tags: seq<string>)
    requires |st| == |ps| == |tags|
    requires forall i :: 0 <= i < |ps| ==> st[i] == Trim(ps[i])
    requires forall i :: 0 <= i < |ps| ==> Trim(ps[i]) == tags[i]
    ensures st == tags
  {
  }

  /** Opening a note or script in the editor (`tags.join(', ')`) and saving it
      again gives back the same tags, provided each was a clean tag. */
  lemma EditedTagsRoundTrip(tags: seq<string>)
    requires forall t :: t in tags ==> IsCleanTag(t)
    ensures ParseTagList(Join(tags, ", ")) == tags
  {
    var s := Join(tags, ", ");
    if tags == [] {
      assert Split(s, ',') == [""];
      assert SplitTrimmed(s) == [""];
      assert ParseTagList(s) == [];
    } else {
      SplitTrimmedJoin(tags);
      KeepAll(tags, NonEmpty);
    }
  }

  /** `s.toLowerCase().includes(term.toLowerCase())`. */
  predicate IncludesFolded(s: string, term: string)
  {
    Includes(ToLower(s), ToLower(term))
  }

  /** The empty search term is found in every string. */
  lemma IncludesFoldedEmpty(s: string)
    ensures IncludesFolded(s, "")
  {
    assert ToLower("") == "";
    IncludesEmpty(ToLower(s));
  }

  /** `tags.some(t => t.toLowerCase().includes(term.toLowerCase()))`. */
  predicate AnyTagIncludes(tags: seq<string>, term: string)
  {
    exists i :: 0 <= i < |tags| && IncludesFolded(tags[i], term)
  }

  /** Lowering the search term first changes nothing; with the empty term the
      tags match exactly when there is at least one. */
  lemma AnyTagIncludesLaws(tags: seq<string>, term: string)
    ensures AnyTagIncludes(tags, ToLower(term)) == AnyTagIncludes(tags, term)
    ensures AnyTagIncludes(tags, "") <==> tags != []
  {
    ToLowerIdempotent(term);
    if tags != [] {
      IncludesFoldedEmpty(tags[0]);
    }
  }
}
