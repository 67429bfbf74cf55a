/**
 * The tag normalisation the add modals apply before submitting:
 * `tags.split(',').map(t => t.trim()).filter(Boolean).join(',')`.
 */
module Tags {
  import opened Text

  /** A tag entry as submitted: non-empty, and neither starting nor ending with whitespace. */
  predicate IsEntry(e: string) {
    e != [] && !IsWhitespace(e[0]) && !IsWhitespace(e[|e| - 1])
  }

  /** `parts.map(p => p.trim()).filter(Boolean)`: the trimmed pieces that are not empty, in order. */
  function NonBlankTrimmed(parts: seq<string>): (r: seq<string>)
    ensures |r| <= |parts|
  {
    if parts == [] then []
    else
      var init := NonBlankTrimmed(parts[..|parts| - 1]);
      var t := Trim(parts[|parts| - 1]);
      if t != [] then init + [t] else init
  }

  /** Every element of `entries` is a trimmed, non-empty entry. */
  predicate AllEntries(entries: seq<string>) {
    forall i :: 0 <= i < |entries| ==> IsEntry(entries[i])
  }

  /** Every piece that survives is a trimmed, non-empty entry. */
  lemma {:induction false} NonBlankTrimmedAreEntries(parts: seq<string>)
    ensures AllEntries(NonBlankTrimmed(parts))
  {
    if parts != [] {
      var init := NonBlankTrimmed(parts[..|parts| - 1]);
      NonBlankTrimmedAreEntries(parts[..|parts| - 1]);
      var t := Trim(parts[|parts| - 1]);
      if t != [] {
        var r := init + [t];
        assert NonBlankTrimmed(parts) == r;
        forall i | 0 <= i < |r| ensures IsEntry(r[i]) {
          if i < |init| {
            assert r[i] == init[i];
            assert IsEntry(init[i]);
          } else {
            assert r[i] == t;
          }
        }
      }
    }
  }

  /** An entry survives exactly when it is the non-empty trim of some piece. */
  lemma NonBlankTrimmedMembers(parts: seq<string>, e: string)
    ensures e in NonBlankTrimmed(parts) <==> e != [] && exists j :: 0 <= j < |parts| && Trim(parts[j]) == e
  {
    if e in NonBlankTrimmed(parts) {
      var j := NonBlankTrimmedSource(parts, e);
    }
    if e != [] && exists j :: 0 <= j < |parts| && Trim(parts[j]) == e {
      var j :| 0 <= j < |parts| && Trim(parts[j]) == e;
      NonBlankTrimmedKeeps(parts, j);
    }
  }

  /** The piece a surviving entry comes from. */
  lemma {:induction false} NonBlankTrimmedSource(parts: seq<string>, e: string) returns (j: int)
    requires e in NonBlankTrimmed(parts)
    ensures 0 <= j < |parts| && Trim(parts[j]) == e && e != []
  {
    assert parts != [];
    var init := parts[..|parts| - 1];
    var t := Trim(parts[|parts| - 1]);
    var before := NonBlankTrimmed(init);
    assert NonBlankTrimmed(parts) == if t != [] then before + [t] else before;
    if e in before {
      j := NonBlankTrimmedSource(init, e);
      assert parts[j] == init[j];
    } else {
      j := |parts| - 1;
    }
  }

  /** A piece whose trim is not empty survives. */
  lemma {:induction false} NonBlankTrimmedKeeps(parts: seq<string>, j: int)
    requires 0 <= j < |parts| && Trim(parts[j]) != []
    ensures Trim(parts[j]) in NonBlankTrimmed(parts)
  {
    var init := parts[..|parts| - 1];
    var t := Trim(parts[|parts| - 1]);
    var before := NonBlankTrimmed(init);
    assert NonBlankTrimmed(parts) == if t != [] then before + [t] else before;
    if j < |parts| - 1 {
      assert init[j] == parts[j];
      NonBlankTrimmedKeeps(init, j);
    }
  }

  /** The entries a tags field submits: trimmed, non-empty, free of commas, in their original order. */
  function TagEntries(tags: string): (entries: seq<string>)
    ensures forall i :: 0 <= i < |entries| ==> IsEntry(entries[i]) && ',' !in entries[i]
  {
    var parts := Split(tags, ',');
    var entries := NonBlankTrimmed(parts);
    NonBlankTrimmedAreEntries(parts);
    assert forall i :: 0 <= i < |entries| ==> ',' !in entries[i] by {
      forall i | 0 <= i < |entries| ensures ',' !in entries[i] {
        NonBlankTrimmedMembers(parts, entries[i]);
        var j :| 0 <= j < |parts| && Trim(parts[j]) == entries[i];
        assert parts[j] in parts;
        if ',' in entries[i] {
          TrimKeepsChars(parts[j], ',');
        }
      }
    }
    entries
  }

  /** The submitted `tags` value: the entries joined by ','. */
  function NormalizeTags(tags: string): string {
    Join(TagEntries(tags), ',')
  }

  /** Entries that are already trimmed and non-empty pass the trim-and-filter step unchanged. */
  lemma {:induction false} NonBlankTrimmedOfClean(parts: seq<string>)
    requires forall i :: 0 <= i < |parts| ==> IsEntry(parts[i])
    ensures NonBlankTrimmed(parts) == parts
  {
    if parts != [] {
      NonBlankTrimmedOfClean(parts[..|parts| - 1]);
      TrimOfTrimmed(parts[|parts| - 1]);
      assert parts == parts[..|parts| - 1] + [parts[|parts| - 1]];
    }
  }

  /** A blank tags field gives no entries and submits ''. */
  lemma BlankTagsHaveNoEntries(tags: string)
    requires Trim(tags) == []
    ensures TagEntries(tags) == [] && NormalizeTags(tags) == []
  {
    var parts := Split(tags, ',');
    forall j | 0 <= j < |parts| ensures Trim(parts[j]) == [] {
      var p := parts[j];
      assert p in parts;
      forall i | 0 <= i < |p| ensures IsWhitespace(p[i]) {
        assert p[i] in tags;
      }
    }
    var entries := TagEntries(tags);
    if entries != [] {
      NonBlankTrimmedMembers(parts, entries[0]);
    }
  }

  /** Normalising a normalised value finds the same entries again. */
  lemma TagEntriesOfNormalized(tags: string)
    ensures TagEntries(NormalizeTags(tags)) == TagEntries(tags)
  {
    var entries := TagEntries(tags);
    if entries == [] {
      assert NormalizeTags(tags) == [];
      BlankTagsHaveNoEntries([]);
    } else {
      assert forall p :: p in entries ==> ',' !in p;
      SplitOfJoin(entries, ',');
      NonBlankTrimmedOfClean(entries);
    }
  }

  /** Normalising twice is the same as normalising once. */
  lemma NormalizeTagsIdempotent(tags: string)
    ensures NormalizeTags(NormalizeTags(tags)) == NormalizeTags(tags)
  {
    TagEntriesOfNormalized(tags);
  }
}
