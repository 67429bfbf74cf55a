/**
 * `extractCategories`: the category keys the explorer offers as filters.
 * Every agent's comma-separated tags are trimmed and collected once each, in
 * order of first appearance; each tag not yet placed opens a group under the
 * lower-cased first word of the tag, and the group takes every unplaced tag
 * whose lower-cased form starts with that word; the group keys come back
 * sorted.
 */
module Categories {
  import opened Optional
  import opened Text
  import opened Tags

  /** Every trimmed, non-empty tag of the agents, in order, repeats included; an absent tags field has none. */
  function AllEntries(agentTags: seq<Option<string>>): seq<string> {
    if agentTags == [] then []
    else AllEntries(agentTags[..|agentTags| - 1]) + TagEntries(agentTags[|agentTags| - 1].GetOr(""))
  }

  predicate AllAreEntries(s: seq<string>) {
    forall i :: 0 <= i < |s| ==> IsEntry(s[i])
  }

  lemma EntriesAppend(a: seq<string>, b: seq<string>)
    requires AllAreEntries(a) && AllAreEntries(b)
    ensures AllAreEntries(a + b)
  {
    forall i | 0 <= i < |a + b| ensures IsEntry((a + b)[i]) {
      if i >= |a| {
        assert (a + b)[i] == b[i - |a|];
      }
    }
  }

  /** Every collected tag is trimmed and non-empty. */
  lemma {:induction false} AllEntriesAreEntries(agentTags: seq<Option<string>>)
    ensures AllAreEntries(AllEntries(agentTags))
  {
    if agentTags != [] {
      var init := agentTags[..|agentTags| - 1];
      AllEntriesAreEntries(init);
      EntriesAppend(AllEntries(init), TagEntries(agentTags[|agentTags| - 1].GetOr("")));
    }
  }

  /** `t` is one of the tags some agent carries. */
  predicate IsTagOf(agentTags: seq<Option<string>>, t: string) {
    t in AllEntries(agentTags)
  }

  predicate NoDuplicates(s: seq<string>) {
    forall i, j :: 0 <= i < j < |s| ==> s[i] != s[j]
  }

  /** The elements of `s` once each, in order of first appearance: what a `Set` built from `s` iterates. */
  function Distinct(s: seq<string>): seq<string> {
    if s == [] then []
    else
      var d := Distinct(s[..|s| - 1]);
      if s[|s| - 1] in d then d else d + [s[|s| - 1]]
  }

  /** Adding one more element extends the distinct elements only when it is new. */
  lemma DistinctSnoc(s: seq<string>, x: string)
    ensures Distinct(s + [x]) == if x in Distinct(s) then Distinct(s) else Distinct(s) + [x]
  {
    assert (s + [x])[..|s|] == s;
  }

  /** The distinct elements hold no repeats and are exactly the elements of `s`. */
  lemma {:induction false} DistinctMembers(s: seq<string>)
    ensures NoDuplicates(Distinct(s))
    ensures forall x :: x in Distinct(s) <==> x in s
  {
    if s != [] {
      var init := s[..|s| - 1];
      DistinctMembers(init);
      assert s == init + [s[|s| - 1]];
    }
  }

  /** The entries of one more agent follow those of the agents before it. */
  lemma AllEntriesSnoc(agentTags: seq<Option<string>>, i: nat)
    requires i < |agentTags|
    ensures AllEntries(agentTags[..i + 1]) == AllEntries(agentTags[..i]) + TagEntries(agentTags[i].GetOr(""))
  {
    assert agentTags[..i + 1][..i] == agentTags[..i];
  }

  /** One more piece adds its trim to the entries when the trim is not empty. */
  lemma NonBlankTrimmedSnoc(before: seq<string>, parts: seq<string>, j: nat)
    requires j < |parts|
    ensures before + NonBlankTrimmed(parts[..j + 1])
            == before + NonBlankTrimmed(parts[..j]) + (if Trim(parts[j]) != [] then [Trim(parts[j])] else [])
  {
    assert parts[..j + 1][..j] == parts[..j];
  }

  /** The collected tags are trimmed, non-empty, and exactly the tags some agent carries. */
  lemma CollectedTags(agentTags: seq<Option<string>>, allTags: seq<string>)
    requires allTags == Distinct(AllEntries(agentTags))
    ensures AllAreEntries(allTags)
    ensures forall t :: IsTagOf(agentTags, t) <==> t in allTags
  {
    var entries := AllEntries(agentTags);
    DistinctMembers(entries);
    AllEntriesAreEntries(agentTags);
    forall i | 0 <= i < |allTags| ensures IsEntry(allTags[i]) {
      assert allTags[i] in entries;
    }
  }

  /** The category key a tag opens: its first space-separated word, lower-cased. */
  function BaseWord(tag: string): string {
    ToLower(Split(tag, ' ')[0])
  }

  /** A tag's lower-cased form starts with its own key, and the key of a trimmed, non-empty tag is not empty. */
  lemma BaseWordOfTag(tag: string)
    ensures ToLower(BaseWord(tag)) == BaseWord(tag)
    ensures BaseWord(tag) <= ToLower(tag)
    ensures IsEntry(tag) ==> BaseWord(tag) != []
  {
    var first := Split(tag, ' ')[0];
    SplitFirstPiece(tag, ' ');
    ToLowerIdempotent(first);
    ToLowerPrefix(first, tag);
  }

  /**
   * The first phase: each agent's tags split on ',', trimmed, and added to
   * the set of all tags when not empty.
   */
  method CollectTags(agentTags: seq<Option<string>>) returns (allTags: seq<string>)
    ensures allTags == Distinct(AllEntries(agentTags))
  {
    allTags := [];
    for i := 0 to |agentTags|
      invariant allTags == Distinct(AllEntries(agentTags[..i]))
    {
      AllEntriesSnoc(agentTags, i);
      var tags := agentTags[i].GetOr("");
      if tags != "" {
        allTags := AddTags(allTags, AllEntries(agentTags[..i]), Split(tags, ','));
      } else {
        assert TagEntries("") == [];
        assert AllEntries(agentTags[..i]) + [] == AllEntries(agentTags[..i]);
      }
    }
    assert agentTags[..|agentTags|] == agentTags;
  }

  /** One step of the inner loop: the next piece's trim joins the tags when it is not empty and not yet there. */
  lemma AddTagStep(before: seq<string>, parts: seq<string>, j: nat, prev: seq<string>, next: seq<string>)
    requires j < |parts|
    requires prev == Distinct(before + NonBlankTrimmed(parts[..j]))
    requires next == if Trim(parts[j]) != "" && Trim(parts[j]) !in prev then prev + [Trim(parts[j])] else prev
    ensures next == Distinct(before + NonBlankTrimmed(parts[..j + 1]))
  {
    NonBlankTrimmedSnoc(before, parts, j);
    var seen := before + NonBlankTrimmed(parts[..j]);
    var t := Trim(parts[j]);
    if t != "" {
      DistinctSnoc(seen, t);
    } else {
      assert seen + [] == seen;
    }
  }

  /** The inner loop of the first phase: the non-empty trims of one agent's pieces join the set of all tags. */
  method AddTags(allTags: seq<string>, ghost before: seq<string>, parts: seq<string>) returns (allTags': seq<string>)
    requires allTags == Distinct(before)
    ensures allTags' == Distinct(before + NonBlankTrimmed(parts))
  {
    allTags' := allTags;
    assert parts[..0] == [];
    assert before + NonBlankTrimmed(parts[..0]) == before;
    for j := 0 to |parts|
      invariant allTags' == Distinct(before + NonBlankTrimmed(parts[..j]))
    {
      ghost var prev := allTags';
      var trimmedTag := Trim(parts[j]);
      if trimmedTag != "" && trimmedTag !in allTags' {
        allTags' := allTags' + [trimmedTag];
      }
      AddTagStep(before, parts, j, prev, allTags');
    }
    assert parts[..|parts|] == parts;
  }

  /** `key` is the non-empty key of one of the tags. */
  predicate IsKeyOf(allTags: seq<string>, key: string) {
    key != [] && exists j :: 0 <= j < |allTags| && key == BaseWord(allTags[j])
  }

  /** Every member of the group starts, lower-cased, with the key. */
  predicate StartsWithKey(key: string, group: seq<string>) {
    forall q :: 0 <= q < |group| ==> key <= ToLower(group[q])
  }

  /** The tag starts, lower-cased, with one of the keys. */
  predicate Placed(groups: map<string, seq<string>>, t: string) {
    exists key :: key in groups && key <= ToLower(t)
  }

  /**
   * `allTags.filter(t => !processed.has(t) && t.toLowerCase().startsWith(prefix))`:
   * the tags not yet placed whose lower-cased form starts with `prefix`, in
   * the order of `tags`.
   */
  function Related(tags: seq<string>, processed: set<string>, prefix: string): seq<string> {
    if tags == [] then []
    else
      var init := Related(tags[..|tags| - 1], processed, prefix);
      var t := tags[|tags| - 1];
      if t !in processed && prefix <= ToLower(t) then init + [t] else init
  }

  /** The related tags are exactly the tags not yet placed that start, lower-cased, with the prefix. */
  lemma {:induction false} RelatedMembers(tags: seq<string>, processed: set<string>, prefix: string)
    ensures forall t :: t in Related(tags, processed, prefix) <==> t in tags && t !in processed && prefix <= ToLower(t)
  {
    if tags != [] {
      var init := tags[..|tags| - 1];
      RelatedMembers(init, processed, prefix);
      assert tags == init + [tags[|tags| - 1]];
    }
  }

  /** The filter of the second phase, as the loop that builds it. */
  method RelatedTags(allTags: seq<string>, processed: set<string>, prefix: string) returns (relatedTags: seq<string>)
    ensures relatedTags == Related(allTags, processed, prefix)
    ensures StartsWithKey(prefix, relatedTags)
    ensures forall q :: 0 <= q < |relatedTags| ==> relatedTags[q] !in processed
  {
    relatedTags := [];
    for m := 0 to |allTags|
      invariant relatedTags == Related(allTags[..m], processed, prefix)
      invariant StartsWithKey(prefix, relatedTags)
      invariant forall q :: 0 <= q < |relatedTags| ==> relatedTags[q] !in processed
    {
      assert allTags[..m + 1][..m] == allTags[..m];
      var otherTag := allTags[m];
      if otherTag !in processed && prefix <= ToLower(otherTag) {
        relatedTags := relatedTags + [otherTag];
      }
    }
    assert allTags[..|allTags|] == allTags;
  }

  /** `relatedTags.forEach(t => processedTags.add(t))`. */
  method MarkProcessed(processed: set<string>, relatedTags: seq<string>) returns (marked: set<string>)
    ensures marked == processed + set t | t in relatedTags
  {
    marked := processed;
    for q := 0 to |relatedTags|
      invariant marked == processed + set t | t in relatedTags[..q]
    {
      assert relatedTags[..q + 1] == relatedTags[..q] + [relatedTags[q]];
      marked := marked + {relatedTags[q]};
    }
    assert relatedTags[..|relatedTags|] == relatedTags;
  }

  /** The state of the second phase: the group map and the set of tags already placed. */
  datatype Grouping = Grouping(groups: map<string, seq<string>>, processed: set<string>)

  /**
   * One iteration of the second phase on `tag`: a placed tag changes nothing;
   * otherwise its key maps to the related tags, which all become placed.
   */
  function Place(allTags: seq<string>, g: Grouping, tag: string): Grouping {
    if tag in g.processed then g
    else
      var baseWord := BaseWord(tag);
      var related := Related(allTags, g.processed, ToLower(baseWord));
      if |related| > 0 then Grouping(g.groups[baseWord := related], g.processed + set t | t in related)
      else g
  }

  /** The state of the second phase after its first `n` iterations. */
  function GroupsOf(allTags: seq<string>, n: nat): Grouping
    requires n <= |allTags|
  {
    if n == 0 then Grouping(map[], {})
    else Place(allTags, GroupsOf(allTags, n - 1), allTags[n - 1])
  }

  /** The groups the second phase builds from all the tags. */
  function Groups(allTags: seq<string>): map<string, seq<string>> {
    GroupsOf(allTags, |allTags|).groups
  }

  /** What the second phase keeps true: the keys so far are keys of tags with their groups under them, and every placed tag starts with a key. */
  predicate GroupsSoFar(allTags: seq<string>, groups: map<string, seq<string>>, processed: set<string>) {
    && (forall key :: key in groups ==> IsKeyOf(allTags, key) && StartsWithKey(key, groups[key]))
    && (forall t :: t in processed ==> Placed(groups, t))
  }

  /**
   * One step of the second phase: a tag not yet placed opens the group of its
   * key, which takes every unplaced tag starting with that key, and those
   * tags become placed; a placed tag changes nothing.
   */
  method PlaceTag(allTags: seq<string>, k: nat, groups: map<string, seq<string>>, processed: set<string>)
    returns (groups': map<string, seq<string>>, processed': set<string>)
    requires k < |allTags|
    ensures Grouping(groups', processed') == Place(allTags, Grouping(groups, processed), allTags[k])
  {
    groups', processed' := groups, processed;
    var tag := allTags[k];
    if tag !in processed {
      var baseWord := BaseWord(tag);
      var relatedTags := RelatedTags(allTags, processed, ToLower(baseWord));
      if |relatedTags| > 0 {
        groups' := groups[baseWord := relatedTags];
        processed' := MarkProcessed(processed, relatedTags);
      }
    }
  }

  /** One step of the second phase keeps the grouping invariant. */
  lemma PlaceKeepsGroups(allTags: seq<string>, k: nat, g: Grouping)
    requires k < |allTags| && IsEntry(allTags[k])
    requires GroupsSoFar(allTags, g.groups, g.processed)
    ensures var g' := Place(allTags, g, allTags[k]);
            GroupsSoFar(allTags, g'.groups, g'.processed)
  {
    var tag := allTags[k];
    if tag !in g.processed {
      var baseWord := BaseWord(tag);
      BaseWordOfTag(tag);
      var related := Related(allTags, g.processed, ToLower(baseWord));
      RelatedMembers(allTags, g.processed, ToLower(baseWord));
      assert tag in related;
      var g' := Place(allTags, g, tag);
      assert IsKeyOf(allTags, baseWord) by {
        assert baseWord == BaseWord(allTags[k]);
      }
      assert g'.groups == g.groups[baseWord := related];
      assert StartsWithKey(baseWord, related) by {
        ToLowerIdempotent(BaseWord(tag));
        forall q | 0 <= q < |related| ensures baseWord <= ToLower(related[q]) {
          assert related[q] in related;
        }
      }
      forall t | t in g'.processed ensures Placed(g'.groups, t) {
        if t in g.processed {
          var key :| key in g.groups && key <= ToLower(t);
          assert key in g'.groups;
        } else {
          assert t in related;
          ToLowerIdempotent(BaseWord(tag));
          assert baseWord in g'.groups && baseWord <= ToLower(t);
        }
      }
    }
  }

  /** After any number of steps the grouping invariant holds. */
  lemma {:induction false} GroupsOfKeepsGroups(allTags: seq<string>, n: nat)
    requires n <= |allTags|
    requires forall i :: 0 <= i < |allTags| ==> IsEntry(allTags[i])
    ensures GroupsSoFar(allTags, GroupsOf(allTags, n).groups, GroupsOf(allTags, n).processed)
  {
    if n > 0 {
      GroupsOfKeepsGroups(allTags, n - 1);
      PlaceKeepsGroups(allTags, n - 1, GroupsOf(allTags, n - 1));
    }
  }

  /** One step of the second phase never unplaces a tag and leaves the tag it visits placed. */
  lemma PlaceMarksTag(allTags: seq<string>, k: nat, g: Grouping)
    requires k < |allTags|
    ensures g.processed <= Place(allTags, g, allTags[k]).processed
    ensures allTags[k] in Place(allTags, g, allTags[k]).processed
  {
    var tag := allTags[k];
    if tag !in g.processed {
      BaseWordOfTag(tag);
      ToLowerIdempotent(BaseWord(tag));
      RelatedMembers(allTags, g.processed, ToLower(BaseWord(tag)));
    }
  }

  /** After any number of steps every tag visited is placed. */
  lemma {:induction false} GroupsOfPlacesVisited(allTags: seq<string>, n: nat)
    requires n <= |allTags|
    ensures forall j :: 0 <= j < n ==> allTags[j] in GroupsOf(allTags, n).processed
  {
    if n > 0 {
      var g := GroupsOf(allTags, n - 1);
      GroupsOfPlacesVisited(allTags, n - 1);
      PlaceMarksTag(allTags, n - 1, g);
      var g' := GroupsOf(allTags, n);
      forall j | 0 <= j < n ensures allTags[j] in g'.processed {
        if j < n - 1 {
          assert allTags[j] in g.processed;
        }
      }
    }
  }

  /**
   * The second phase: each tag not yet placed opens the group of its key,
   * which takes every unplaced tag whose lower-cased form starts with the key.
   * The result is the reference fold `Groups`; every key is the key of some
   * tag, every group's members start with its key, and every tag starts with
   * some key.
   */
  method GroupTags(allTags: seq<string>) returns (groups: map<string, seq<string>>)
    requires forall i :: 0 <= i < |allTags| ==> IsEntry(allTags[i])
    ensures groups == Groups(allTags)
    ensures forall key :: key in groups ==> IsKeyOf(allTags, key) && StartsWithKey(key, groups[key])
    ensures forall j :: 0 <= j < |allTags| ==> Placed(groups, allTags[j])
  {
    groups := map[];
    var processed: set<string> := {};
    for k := 0 to |allTags|
      invariant Grouping(groups, processed) == GroupsOf(allTags, k)
    {
      groups, processed := PlaceTag(allTags, k, groups, processed);
    }
    GroupsOfKeepsGroups(allTags, |allTags|);
    GroupsOfPlacesVisited(allTags, |allTags|);
  }

  /**
   * The groups depend on the order of the tags. Take two tags where the key
   * of `x` starts `y` but the key of `y` does not start `x` (such as
   * "Art history" and "artificial"): with `x` first, its group takes both
   * tags and is the only one; with `y` first, each tag opens its own group.
   */
  lemma GroupingDependsOnOrder(x: string, y: string)
    requires x != y
    requires BaseWord(x) <= ToLower(y) && !(BaseWord(y) <= ToLower(x))
    ensures Groups([x, y]) == map[BaseWord(x) := [x, y]]
    ensures Groups([y, x]) == map[BaseWord(y) := [y], BaseWord(x) := [x]]
    ensures BaseWord(x) != BaseWord(y)
  {
    BaseWordOfTag(x);
    BaseWordOfTag(y);
    ToLowerIdempotent(BaseWord(x));
    ToLowerIdempotent(BaseWord(y));
    var kx, ky := BaseWord(x), BaseWord(y);

    RelatedPair(x, y, {}, kx);
    var g1 := GroupsOf([x, y], 1);
    assert [x, y][..1] == [x];
    assert ToLower(kx) == kx;
    assert (set t | t in [x, y]) == {x, y};
    assert GroupsOf([x, y], 0) == Grouping(map[], {});
    assert g1 == Place([x, y], GroupsOf([x, y], 0), [x, y][0]);
    assert g1 == Place([x, y], Grouping(map[], {}), x);
    assert Related([x, y], {}, ToLower(BaseWord(x))) == [x, y];
    assert g1 == Grouping(map[kx := [x, y]], {x, y});
    assert GroupsOf([x, y], 2) == g1;

    RelatedPair(y, x, {}, ky);
    var h1 := GroupsOf([y, x], 1);
    assert [y, x][..1] == [y];
    assert (set t | t in [y]) == {y};
    assert GroupsOf([y, x], 0) == Grouping(map[], {});
    assert h1 == Place([y, x], GroupsOf([y, x], 0), [y, x][0]);
    assert ToLower(ky) == ky;
    assert Related([y, x], {}, ToLower(BaseWord(y))) == [y];
    assert h1 == Grouping(map[ky := [y]], {y});
    RelatedPair(y, x, {y}, kx);
    assert (set t | t in [x]) == {x};
    assert GroupsOf([y, x], 2) == Place([y, x], h1, x);
  }

  /** The filter on two tags, written out. */
  lemma RelatedPair(x: string, y: string, processed: set<string>, prefix: string)
    ensures Related([x, y], processed, prefix)
            == (if x !in processed && prefix <= ToLower(x) then [x] else [])
               + (if y !in processed && prefix <= ToLower(y) then [y] else [])
  {
    var px := if x !in processed && prefix <= ToLower(x) then [x] else [];
    var py := if y !in processed && prefix <= ToLower(y) then [y] else [];
    assert Related([x], processed, prefix) == px by {
      assert [x][..0] == [];
      assert Related([], processed, prefix) == [];
    }
    assert [x, y][..1] == [x];
    assert Related([x, y], processed, prefix) == Related([x], processed, prefix) + py;
  }

  /** Ascending in the default sort order, hence without repeats. */
  predicate StrictlySorted(s: seq<string>) {
    forall i, j :: 0 <= i < j < |s| ==> LexLess(s[i], s[j])
  }

  /** Inserts a new key at its place in a sorted list. */
  method InsertSorted(sorted: seq<string>, key: string) returns (r: seq<string>)
    requires StrictlySorted(sorted) && key !in sorted
    ensures StrictlySorted(r)
    ensures |r| == |sorted| + 1
    ensures forall x :: x in r <==> x in sorted || x == key
  {
    var i := 0;
    while i < |sorted| && LexLess(sorted[i], key)
      invariant 0 <= i <= |sorted|
      invariant forall j :: 0 <= j < i ==> LexLess(sorted[j], key)
    {
      i := i + 1;
    }
    if i < |sorted| {
      LexLessTotal(sorted[i], key);
      forall j | i < j < |sorted| ensures LexLess(key, sorted[j]) {
        LexLessTransitive(key, sorted[i], sorted[j]);
      }
    }
    r := sorted[..i] + [key] + sorted[i..];
    forall a, b | 0 <= a < b < |r| ensures LexLess(r[a], r[b]) {
      var x := if a < i then sorted[a] else if a == i then key else sorted[a - 1];
      var y := if b < i then sorted[b] else if b == i then key else sorted[b - 1];
      assert r[a] == x && r[b] == y;
    }
    assert sorted == sorted[..i] + sorted[i..];
  }

  /** `Object.keys(groups).sort()`: the keys, each once, in ascending order. */
  method SortedKeys(groups: map<string, seq<string>>) returns (keys: seq<string>)
    ensures StrictlySorted(keys)
    ensures forall k :: k in keys <==> k in groups
  {
    keys := [];
    var pending := groups.Keys;
    while pending != {}
      invariant pending <= groups.Keys
      invariant StrictlySorted(keys)
      invariant forall k :: k in keys <==> k in groups && k !in pending
      decreases |pending|
    {
      var key :| key in pending;
      keys := InsertSorted(keys, key);
      pending := pending - {key};
    }
  }

  /** The tag starts, lower-cased, with one of the categories. */
  predicate StartsWithCategory(categories: seq<string>, t: string) {
    exists i :: 0 <= i < |categories| && categories[i] <= ToLower(t)
  }

  /** The distinct tags of the agents, in order of first appearance, as the first phase collects them. */
  function CollectedTagsOf(agentTags: seq<Option<string>>): seq<string> {
    Distinct(AllEntries(agentTags))
  }

  /** The categories of the agents: the keys of the groups the second phase builds. */
  function CategoryKeys(agentTags: seq<Option<string>>): set<string> {
    Groups(CollectedTagsOf(agentTags)).Keys
  }

  /**
   * `extractCategories(agents)`, where each agent is given by its tags field.
   * No agents give no categories; otherwise the categories are the group keys
   * of the two phases, sorted without repeats, which fixes them exactly
   * (`SortedIsUnique`); each is the non-empty key of some tag, and every tag
   * starts, lower-cased, with one of them.
   */
  method ExtractCategories(agents: Option<seq<Option<string>>>) returns (categories: seq<string>)
    ensures agents.None? || agents.value == [] ==> categories == []
    ensures StrictlySorted(categories)
    ensures agents.Some? && agents.value != [] ==> forall k :: k in categories <==> k in CategoryKeys(agents.value)
    ensures agents.Some? ==> forall i :: 0 <= i < |categories| ==>
              categories[i] != [] && exists t :: IsTagOf(agents.value, t) && categories[i] == BaseWord(t)
    ensures agents.Some? ==> forall t :: IsTagOf(agents.value, t) ==> StartsWithCategory(categories, t)
  {
    if agents.None? || agents.value == [] {
      return [];
    }
    var allTags := CollectTags(agents.value);
    CollectedTags(agents.value, allTags);
    var groups := GroupTags(allTags);
    categories := SortedKeys(groups);
    KeysOfTags(allTags, groups, categories);
    KeysCoverTags(allTags, groups, categories);
    KeysOfAgentTags(agents.value, allTags, categories);
    AgentTagsCovered(agents.value, allTags, categories);
  }

  /** Two strictly sorted sequences with the same members are the same sequence. */
  lemma {:induction false} SortedIsUnique(a: seq<string>, b: seq<string>)
    requires StrictlySorted(a) && StrictlySorted(b)
    requires forall x :: x in a <==> x in b
    ensures a == b
  {
    if a != [] {
      assert a[0] in b;
    }
    if b != [] {
      assert b[0] in a;
    }
    if a != [] && b != [] {
      // The heads are both the least member.
      if a[0] != b[0] {
        assert a[0] in b && b[0] in a;
        var i :| 0 <= i < |b| && b[i] == a[0];
        var j :| 0 <= j < |a| && a[j] == b[0];
        assert i > 0 && j > 0;
        assert LexLess(b[0], a[0]) && LexLess(a[0], b[0]);
        LexLessTransitive(a[0], b[0], a[0]);
        LexLessIrreflexive(a[0]);
      }
      forall x ensures x in a[1..] <==> x in b[1..] {
        if x in a[1..] {
          var i :| 1 <= i < |a| && a[i] == x;
          assert LexLess(a[0], x);
          LexLessIrreflexive(x);
          assert x != b[0] && x in b;
          var i' :| 0 <= i' < |b| && b[i'] == x;
          assert b[1..][i' - 1] == x;
        }
        if x in b[1..] {
          var i :| 1 <= i < |b| && b[i] == x;
          assert LexLess(b[0], x);
          LexLessIrreflexive(x);
          assert x != a[0] && x in a;
          var i' :| 0 <= i' < |a| && a[i'] == x;
          assert a[1..][i' - 1] == x;
        }
      }
      SortedIsUnique(a[1..], b[1..]);
      assert a == [a[0]] + a[1..] && b == [b[0]] + b[1..];
    }
  }

  /** Each sorted key is the non-empty key of one of the collected tags. */
  lemma KeysOfTags(allTags: seq<string>, groups: map<string, seq<string>>, categories: seq<string>)
    requires forall key :: key in groups ==> IsKeyOf(allTags, key)
    requires forall k :: k in categories <==> k in groups
    ensures forall i :: 0 <= i < |categories| ==> IsKeyOf(allTags, categories[i])
  {
    forall i | 0 <= i < |categories| ensures IsKeyOf(allTags, categories[i]) {
      assert categories[i] in groups;
    }
  }

  /** Each collected tag starts, lower-cased, with one of the sorted keys. */
  lemma KeysCoverTags(allTags: seq<string>, groups: map<string, seq<string>>, categories: seq<string>)
    requires forall j :: 0 <= j < |allTags| ==> Placed(groups, allTags[j])
    requires forall k :: k in categories <==> k in groups
    ensures forall j :: 0 <= j < |allTags| ==> StartsWithCategory(categories, allTags[j])
  {
    forall j | 0 <= j < |allTags| ensures StartsWithCategory(categories, allTags[j]) {
      assert Placed(groups, allTags[j]);
      var key :| key in groups && key <= ToLower(allTags[j]);
      var i :| 0 <= i < |categories| && categories[i] == key;
    }
  }

  lemma KeysOfAgentTags(agentTags: seq<Option<string>>, allTags: seq<string>, categories: seq<string>)
    requires forall t :: IsTagOf(agentTags, t) <==> t in allTags
    requires forall i :: 0 <= i < |categories| ==> IsKeyOf(allTags, categories[i])
    ensures forall i :: 0 <= i < |categories| ==>
              categories[i] != [] && exists t :: IsTagOf(agentTags, t) && categories[i] == BaseWord(t)
  {
    forall i | 0 <= i < |categories|
      ensures categories[i] != [] && exists t :: IsTagOf(agentTags, t) && categories[i] == BaseWord(t)
    {
      var j :| 0 <= j < |allTags| && categories[i] == BaseWord(allTags[j]);
      assert IsTagOf(agentTags, allTags[j]);
    }
  }

  lemma AgentTagsCovered(agentTags: seq<Option<string>>, allTags: seq<string>, categories: seq<string>)
    requires forall t :: IsTagOf(agentTags, t) <==> t in allTags
    requires forall j :: 0 <= j < |allTags| ==> StartsWithCategory(categories, allTags[j])
    ensures forall t :: IsTagOf(agentTags, t) ==> StartsWithCategory(categories, t)
  {
    forall t | IsTagOf(agentTags, t) ensures StartsWithCategory(categories, t) {
      var m :| 0 <= m < |allTags| && allTags[m] == t;
    }
  }
}
