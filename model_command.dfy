/**
 * The `model list` command (cmd/model.go): the reverse alias lookup,
 * the models sorted by ID, and the aligned listing lines. Terminal
 * styling is left out, so each styled piece is its plain text.
 */
module ModelCommand {
  import opened Text
  import opened Sorting
  import opened Listings
  import opened AppTypes

  // ------------------------------------------------- buildReverseAliases

  /** The short names that `table` maps to `id`. */
  ghost function AliasesOf(table: map<string, string>, id: string): set<string> {
    set a | a in table && table[a] == id
  }

  /**
   * The reverse lookup under construction: the target of every alias in
   * `done` has a list, and each list holds, once each, exactly the
   * aliases of its ID among `done`.
   */
  ghost predicate Grouped(reverse: map<string, seq<string>>, table: map<string, string>, done: set<string>) {
    && done <= table.Keys
    && (forall a :: a in done ==> table[a] in reverse)
    && (forall id :: id in reverse ==> reverse[id] != [] && NoDuplicates(reverse[id]))
    && (forall id, x :: id in reverse ==> (x in reverse[id] <==> x in done && table[x] == id))
  }

  /**
   * buildReverseAliases: every alias target maps to the list of its
   * aliases, ascending, each once; the keys are exactly the targets.
   */
  method BuildReverseAliases() returns (reverse: map<string, seq<string>>)
    ensures reverse.Keys == AliasTargets
    ensures forall id :: id in reverse ==> SortedListing(reverse[id], AliasesOf(AliasTable, id))
  {
    var table := ModelAliases();
    AliasTableShape();
    assert table.Values == AliasTargets;
    hide AliasTable, AliasTargets;
    reverse := ReverseOf(table);
  }

  /** The reverse lookup of any alias table. */
  method ReverseOf(table: map<string, string>) returns (reverse: map<string, seq<string>>)
    ensures reverse.Keys == table.Values
    ensures forall id :: id in reverse ==> SortedListing(reverse[id], AliasesOf(table, id))
  {
    hide Grouped;
    reverse := map[];
    var rest := table.Keys;
    GroupedStart(table);
    while rest != {}
      invariant rest <= table.Keys
      invariant Grouped(reverse, table, table.Keys - rest)
      decreases |rest|
    {
      var alias :| alias in rest;
      reverse := AddAlias(reverse, table, table.Keys - rest, alias);
      assert (table.Keys - rest) + {alias} == table.Keys - (rest - {alias});
      rest := rest - {alias};
    }
    assert table.Keys - rest == table.Keys;
    var ids := reverse.Keys;
    ghost var keys := reverse.Keys;
    while ids != {}
      invariant ids <= keys && reverse.Keys == keys
      invariant Grouped(reverse, table, table.Keys)
      invariant forall id :: id in reverse && id !in ids ==> SortedBy(reverse[id], StrLe)
      decreases |ids|
    {
      var id :| id in ids;
      reverse := SortAliases(reverse, table, id);
      ids := ids - {id};
    }
    GroupedKeys(reverse, table);
    GroupedListings(reverse, table);
  }

  /** Once every alias is grouped and every list sorted, each list is the sorted listing of its aliases. */
  lemma GroupedListings(reverse: map<string, seq<string>>, table: map<string, string>)
    requires Grouped(reverse, table, table.Keys)
    requires forall id :: id in reverse ==> SortedBy(reverse[id], StrLe)
    ensures forall id :: id in reverse ==> SortedListing(reverse[id], AliasesOf(table, id))
  {
    forall id | id in reverse
      ensures SortedListing(reverse[id], AliasesOf(table, id))
    {
      assert forall x :: x in reverse[id] <==> x in AliasesOf(table, id);
    }
  }

  lemma GroupedStart(table: map<string, string>)
    ensures Grouped(map[], table, table.Keys - table.Keys)
  {
  }

  /** Once every alias is grouped, the IDs with a list are exactly the targets. */
  lemma GroupedKeys(reverse: map<string, seq<string>>, table: map<string, string>)
    requires Grouped(reverse, table, table.Keys)
    ensures reverse.Keys == table.Values
  {
    forall id | id in reverse
      ensures id in table.Values
    {
      var x := reverse[id][0];
      assert x in reverse[id];
      assert x in table && table[x] == id;
    }
    forall id | id in table.Values
      ensures id in reverse
    {
      var a :| a in table && table[a] == id;
    }
  }

  /** One step of the first loop: appends `alias` to the list of its target. */
  method AddAlias(reverse: map<string, seq<string>>, table: map<string, string>, done: set<string>, alias: string)
    returns (next: map<string, seq<string>>)
    requires Grouped(reverse, table, done)
    requires alias in table && alias !in done
    ensures Grouped(next, table, done + {alias})
  {
    var id := table[alias];
    var list := if id in reverse then reverse[id] else [];
    assert alias !in list;
    next := reverse[id := list + [alias]];
    assert NoDuplicates(list + [alias]) by {
      forall x ensures multiset(list + [alias])[x] <= 1 {
        assert multiset(list + [alias]) == multiset(list) + multiset{alias};
        if id !in reverse {
          assert multiset(list)[x] == 0;
        }
      }
    }
  }

  /** One step of the second loop: sorts the list of `id` in place. */
  method SortAliases(reverse: map<string, seq<string>>, table: map<string, string>, id: string)
    returns (next: map<string, seq<string>>)
    requires Grouped(reverse, table, table.Keys)
    requires id in reverse
    ensures Grouped(next, table, table.Keys)
    ensures next.Keys == reverse.Keys && SortedBy(next[id], StrLe)
    ensures forall k :: k in reverse && k != id ==> next[k] == reverse[k]
  {
    hide Grouped;
    var sorted := SortStrings(reverse[id]);
    next := reverse[id := sorted];
    GroupedReordered(reverse, table, id, sorted);
  }

  /** Replacing one list by a permutation of it keeps the lookup grouped. */
  lemma GroupedReordered(reverse: map<string, seq<string>>, table: map<string, string>, id: string, s: seq<string>)
    requires Grouped(reverse, table, table.Keys)
    requires id in reverse && multiset(s) == multiset(reverse[id])
    ensures Grouped(reverse[id := s], table, table.Keys)
  {
    forall x
      ensures multiset(s)[x] <= 1
      ensures x in s <==> x in reverse[id]
    {
      assert multiset(reverse[id])[x] <= 1;
      assert x in s <==> x in multiset(s);
      assert x in reverse[id] <==> x in multiset(reverse[id]);
    }
    assert s != [] by {
      assert reverse[id][0] in reverse[id];
    }
  }

  /** Every alias is listed under its own target and under no other. */
  lemma EachAliasListedOnce(reverse: map<string, seq<string>>, table: map<string, string>, a: string, id: string)
    requires forall id :: id in reverse ==> SortedListing(reverse[id], AliasesOf(table, id))
    requires reverse.Keys == table.Values
    requires a in table
    ensures table[a] in reverse && a in reverse[table[a]]
    ensures id in reverse && a in reverse[id] ==> id == table[a]
    ensures id in reverse ==> multiset(reverse[id])[a] <= 1
  {
    assert table[a] in table.Values;
  }

  // ---------------------------------------------------------- list command

  /** Model IDs in ascending byte order, as the list command's sort.Slice compares them. */
  predicate IdLe(a: Model, b: Model) {
    StrLe(a.id, b.id)
  }

  lemma IdLeIsTotalPreorder()
    ensures TotalPreorder(IdLe)
  {
    forall x, y ensures IdLe(x, y) || IdLe(y, x) {
      StrLeTotal(x.id, y.id);
    }
    forall x, y, z | IdLe(x, y) && IdLe(y, z) ensures IdLe(x, z) {
      StrLeTransitive(x.id, y.id, z.id);
    }
  }

  /** The list command's sort: the same models, IDs ascending. */
  method SortModelsById(models: array<Model>)
    modifies models
    ensures SortedBy(models[..], IdLe)
    ensures multiset(models[..]) == multiset(old(models[..]))
  {
    IdLeIsTotalPreorder();
    SortBy(models, IdLe);
  }

  /** The longest model ID, measured in characters; 0 for no models. */
  method LongestId(models: seq<Model>) returns (maxLen: nat)
    ensures forall i :: 0 <= i < |models| ==> |models[i].id| <= maxLen
    ensures maxLen == 0 || exists i :: 0 <= i < |models| && |models[i].id| == maxLen
  {
    maxLen := 0;
    var i := 0;
    while i < |models|
      invariant 0 <= i <= |models|
      invariant forall k :: 0 <= k < i ==> |models[k].id| <= maxLen
      invariant maxLen == 0 || exists k :: 0 <= k < i && |models[k].id| == maxLen
    {
      if |models[i].id| > maxLen {
        maxLen := |models[i].id|;
      }
      i := i + 1;
    }
  }

  /** Model IDs known to take image input. */
  const VisionModels: set<string> := {"hf:moonshotai/Kimi-K2.5", "hf:nvidia/Kimi-K2.5-NVFP4"}

  /** The tags after a model: its aliases joined by ", ", then "vision" for a vision model. */
  function Tags(id: string, reverse: map<string, seq<string>>): (tags: seq<string>)
    ensures |tags| <= 2
    ensures |tags| > 0 <==> (id in reverse && |reverse[id]| > 0) || id in VisionModels
  {
    (if id in reverse && |reverse[id]| > 0 then [Join(reverse[id], ", ")] else [])
    + (if id in VisionModels then ["vision"] else [])
  }

  function Spaces(n: nat): (s: string)
    ensures |s| == n && forall i :: 0 <= i < n ==> s[i] == ' '
  {
    seq(n, _ => ' ')
  }

  /** The padding between an ID and its tags. */
  function Pad(maxLen: int, id: string): int {
    maxLen - |id| + 2
  }

  /** One listing line: the ID padded to the tag column and the tags, or the ID alone. */
  function ModelLine(id: string, reverse: map<string, seq<string>>, maxLen: int): string
    requires |id| <= maxLen
  {
    var tags := Tags(id, reverse);
    if |tags| > 0 then "  " + id + Spaces(Pad(maxLen, id)) + Join(tags, "  ") + "\n"
    else "  " + id + "\n"
  }

  /** The padding is at least two spaces, and every tag list starts at the same column. */
  lemma TagsAligned(id: string, reverse: map<string, seq<string>>, maxLen: int)
    requires |id| <= maxLen
    requires |Tags(id, reverse)| > 0
    ensures Pad(maxLen, id) >= 2
    ensures var line := ModelLine(id, reverse, maxLen);
      |line| >= maxLen + 4 && line[..maxLen + 4] == "  " + id + Spaces(Pad(maxLen, id))
      && line[maxLen + 4..] == Join(Tags(id, reverse), "  ") + "\n"
  {
    hide Join, Tags;
    var pre := "  " + id + Spaces(Pad(maxLen, id));
    var line := ModelLine(id, reverse, maxLen);
    assert line == pre + (Join(Tags(id, reverse), "  ") + "\n");
    assert |pre| == maxLen + 4;
  }
}
