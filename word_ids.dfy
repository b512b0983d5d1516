/**
  Word identifiers of a list (core.py `get_word_id`, and the deduplication
  and validation in `generate_anki_cards`).
 */
module WordIds {

  import opened Errors

  /** The list-item type tag that marks a word. */
  const WordType := 102

  /** One raw list item: its type tag and its target identifier. */
  datatype ListEntry = ListEntry(targetType: int, targetId: string)

  const NoWords := "词单中无单词"
  const Restricted := "未登录，数据访问受限"

  /** The identifiers of the word items, in list order, duplicates kept. */
  function WordIdsOf(entries: seq<ListEntry>): seq<string>
  {
    if entries == [] then []
    else
      var last := entries[|entries| - 1];
      WordIdsOf(entries[..|entries| - 1]) + (if last.targetType == WordType then [last.targetId] else [])
  }

  /** `get_word_id`: the loop appends the id of each word item. */
  method GetWordId(wordList: seq<ListEntry>) returns (ids: seq<string>)
    ensures ids == WordIdsOf(wordList)
  {
    ids := [];
    for i := 0 to |wordList|
      invariant ids == WordIdsOf(wordList[..i])
    {
      assert wordList[..i + 1][..i] == wordList[..i];
      if wordList[i].targetType == WordType {
        ids := ids + [wordList[i].targetId];
      }
    }
    assert wordList[..|wordList|] == wordList;
  }

  /** Extraction distributes over concatenation: the ids of each page follow one another in page order. */
  lemma {:induction false} WordIdsAppend(a: seq<ListEntry>, b: seq<ListEntry>)
    ensures WordIdsOf(a + b) == WordIdsOf(a) + WordIdsOf(b)
    decreases |b|
  {
    if b != [] {
      var b' := b[..|b| - 1];
      assert (a + b)[..|a + b| - 1] == a + b';
      WordIdsAppend(a, b');
    } else {
      assert a + b == a;
    }
  }

  /** An id is extracted exactly when some word item carries it. */
  lemma {:induction false} WordIdsMembership(entries: seq<ListEntry>, x: string)
    ensures x in WordIdsOf(entries) <==>
            exists i :: 0 <= i < |entries| && entries[i].targetType == WordType && entries[i].targetId == x
  {
    if entries != [] {
      var init := entries[..|entries| - 1];
      WordIdsMembership(init, x);
      assert forall i :: 0 <= i < |init| ==> init[i] == entries[i];
      if exists i :: 0 <= i < |entries| && entries[i].targetType == WordType && entries[i].targetId == x {
        var i :| 0 <= i < |entries| && entries[i].targetType == WordType && entries[i].targetId == x;
        if i < |init| {
          assert init[i] == entries[i];
        }
      }
    }
  }

  /** The ids without repetition, each kept at its first occurrence. */
  function Dedup(ids: seq<string>): (r: seq<string>)
    ensures forall x :: x in r <==> x in ids
    ensures Distinct(r)
    ensures |r| <= |ids|
  {
    if ids == [] then []
    else
      var d := Dedup(ids[..|ids| - 1]);
      var x := ids[|ids| - 1];
      assert forall y :: y in ids <==> y in ids[..|ids| - 1] || y == x;
      if x in d then d else d + [x]
  }

  predicate Distinct(s: seq<string>)
  {
    forall i, j :: 0 <= i < j < |s| ==> s[i] != s[j]
  }

  /** `list(set(ids))` has as many elements as there are distinct ids. */
  lemma DedupSize(ids: seq<string>)
    ensures |Dedup(ids)| == |set x | x in ids|
  {
    var r := Dedup(ids);
    assert (set x | x in ids) == (set x | x in r);
    DistinctSize(r);
  }

  lemma {:induction false} DistinctSize(s: seq<string>)
    requires Distinct(s)
    ensures |set x | x in s| == |s|
  {
    if s != [] {
      var init := s[..|s| - 1];
      assert Distinct(init);
      DistinctSize(init);
      assert (set x | x in s) == (set x | x in init) + {s[|s| - 1]};
      assert s[|s| - 1] !in init;
    }
  }

  /**
    The two checks on the deduplicated ids: an empty list is reported first,
    whatever the page size; otherwise fewer ids than the first page's size
    means the service withheld data.
   */
  function ValidateIds(ids: seq<string>, size: int): (r: Result<seq<string>>)
    ensures r.Ok? <==> |ids| > 0 && |ids| >= size
    ensures r.Ok? ==> r.value == ids
    ensures |ids| == 0 ==> r == Err(DataError(NoWords))
    ensures 0 < |ids| < size ==> r == Err(DataError(Restricted))
  {
    if |ids| == 0 then Err(DataError(NoWords))
    else if |ids| < size then Err(DataError(Restricted))
    else Ok(ids)
  }

  /** Entries of types [102, 102, 999, 102] with ids [a, a, b, c] give the ids a, a, c. */
  lemma ExtractionExample()
    ensures WordIdsOf([ListEntry(102, "a"), ListEntry(102, "a"), ListEntry(999, "b"), ListEntry(102, "c")]) == ["a", "a", "c"]
  {
    var e1 := [ListEntry(102, "a")];
    var e2 := e1 + [ListEntry(102, "a")];
    var e3 := e2 + [ListEntry(999, "b")];
    var e4 := e3 + [ListEntry(102, "c")];
    assert e1[..0] == [] && e2[..1] == e1 && e3[..2] == e2 && e4[..3] == e3;
    assert WordIdsOf(e1) == ["a"];
    assert WordIdsOf(e2) == ["a", "a"];
    assert WordIdsOf(e3) == ["a", "a"];
    assert WordIdsOf(e4) == ["a", "a"] + ["c"];
    assert e4 == [ListEntry(102, "a"), ListEntry(102, "a"), ListEntry(999, "b"), ListEntry(102, "c")];
  }

  /** ... and deduplicating them leaves a and c. */
  lemma DedupExample()
    ensures Dedup(["a", "a", "c"]) == ["a", "c"]
  {
    var i1 := ["a"];
    var i2 := i1 + ["a"];
    var i3 := i2 + ["c"];
    assert i1[..0] == [] && i2[..1] == i1 && i3[..2] == i2;
    assert i1[|i1| - 1] == "a" && i2[|i2| - 1] == "a" && i3[|i3| - 1] == "c";
    assert Dedup(i1) == ["a"];
    assert Dedup(i2) == ["a"];
    assert "c" != "a";
    assert Dedup(i3) == ["a"] + ["c"];
    assert i3 == ["a", "a", "c"];
  }
}
