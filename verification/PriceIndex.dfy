/** The price index by model name, and the cache that hands it out while the table changes. */
module PriceIndex {
  import opened Common

  /** `name` is the model name in lower case without surrounding blanks; `price` stands for all rates. */
  datatype Entry = Entry(name: string, price: int)

  // ---------- names ----------

  /** The part after the last slash, unless that is empty. */
  function TrimVendorPrefix(name: string): string {
    var i := LastSlash(name);
    if 0 <= i && i + 1 < |name| then name[i + 1..] else name
  }

  function LastSlash(name: string): (i: int)
    ensures -1 <= i < |name|
    ensures i >= 0 ==> name[i] == '/'
    ensures forall j :: i < j < |name| ==> name[j] != '/'
  {
    if name == "" then -1 else if name[|name| - 1] == '/' then |name| - 1 else LastSlash(name[..|name| - 1])
  }

  predicate Digits(s: string) {
    forall i :: 0 <= i < |s| ==> '0' <= s[i] <= '9'
  }

  /** A trailing date such as -20250514 is cut off. */
  function TrimDate(name: string): string {
    if |name| >= 9 && name[|name| - 9] == '-' && name[|name| - 8..|name| - 6] in {"19", "20"} && Digits(name[|name| - 6..])
    then name[..|name| - 9] else name
  }

  function Aliases(name: string): seq<string> {
    [TrimVendorPrefix(name), TrimDate(name), TrimDate(TrimVendorPrefix(name))]
  }

  predicate HasAlias(e: Entry, key: string) {
    e.name != "" && key != "" && key in Aliases(e.name)
  }

  // ---------- the index ----------

  /** The first entry with this name. */
  function FirstNamed(entries: seq<Entry>, key: string): Option<Entry> {
    if entries == [] then None
    else
      var before, e := FirstNamed(entries[..|entries| - 1], key), entries[|entries| - 1];
      if before.Some? then before else if e.name != "" && e.name == key then Some(e) else None
  }

  function FirstAliased(entries: seq<Entry>, key: string): Option<Entry> {
    if entries == [] then None
    else
      var before, e := FirstAliased(entries[..|entries| - 1], key), entries[|entries| - 1];
      if before.Some? then before else if HasAlias(e, key) then Some(e) else None
  }

  /** A full name beats every alias; among equals the first entry wins. */
  function Lookup(entries: seq<Entry>, key: string): Option<Entry> {
    if FirstNamed(entries, key).Some? then FirstNamed(entries, key) else FirstAliased(entries, key)
  }

  function Get(index: map<string, Entry>, key: string): Option<Entry> {
    if key in index then Some(index[key]) else None
  }

  /** Keep what is there. */
  function Fill(index: map<string, Entry>, key: string, e: Entry): map<string, Entry> {
    if key == "" || key in index then index else index[key := e]
  }

  lemma FillGets(index: map<string, Entry>, k: string, e: Entry, key: string)
    ensures Get(Fill(index, k, e), key) ==
            if Get(index, key).Some? then Get(index, key) else if k != "" && k == key then Some(e) else None
  {
  }

  ghost predicate Names(index: map<string, Entry>, entries: seq<Entry>) {
    forall key :: Get(index, key) == FirstNamed(entries, key)
  }

  ghost predicate Indexes(index: map<string, Entry>, entries: seq<Entry>, done: seq<Entry>) {
    forall key :: Get(index, key) == if FirstNamed(entries, key).Some? then FirstNamed(entries, key) else FirstAliased(done, key)
  }

  lemma NameStep(index: map<string, Entry>, entries: seq<Entry>, i: nat)
    requires i < |entries| && Names(index, entries[..i])
    ensures Names(Fill(index, entries[i].name, entries[i]), entries[..i + 1])
  {
    var e := entries[i];
    assert entries[..i + 1][..i] == entries[..i];
    forall key
      ensures Get(Fill(index, e.name, e), key) == FirstNamed(entries[..i + 1], key)
    {
      FillGets(index, e.name, e, key);
    }
  }

  function FillAliases(index: map<string, Entry>, e: Entry): map<string, Entry> {
    var a := Aliases(e.name);
    Fill(Fill(Fill(index, a[0], e), a[1], e), a[2], e)
  }

  lemma FillAliasesGets(index: map<string, Entry>, e: Entry, key: string)
    requires e.name != ""
    ensures Get(FillAliases(index, e), key) ==
            if Get(index, key).Some? then Get(index, key) else if HasAlias(e, key) then Some(e) else None
  {
    hide TrimVendorPrefix, TrimDate, Fill, Get;
    var a := Aliases(e.name);
    FillGets(index, a[0], e, key);
    FillGets(Fill(index, a[0], e), a[1], e, key);
    FillGets(Fill(Fill(index, a[0], e), a[1], e), a[2], e, key);
  }

  lemma AliasStep(index: map<string, Entry>, entries: seq<Entry>, i: nat)
    requires i < |entries| && Indexes(index, entries, entries[..i])
    ensures Indexes(if entries[i].name == "" then index else FillAliases(index, entries[i]), entries, entries[..i + 1])
  {
    hide FillAliases, HasAlias, FirstNamed;
    var e := entries[i];
    assert entries[..i + 1][..i] == entries[..i];
    forall key
      ensures Get(if e.name == "" then index else FillAliases(index, e), key) ==
              if FirstNamed(entries, key).Some? then FirstNamed(entries, key) else FirstAliased(entries[..i + 1], key)
    {
      NamelessHasNone(e, key);
      if e.name != "" {
        FillAliasesGets(index, e, key);
      }
    }
  }

  lemma NamelessHasNone(e: Entry, key: string)
    ensures HasAlias(e, key) ==> e.name != ""
  {
  }

  lemma NothingIndexed(entries: seq<Entry>)
    ensures Names(map[], [])
  {
  }

  lemma NamesAreIndexed(index: map<string, Entry>, entries: seq<Entry>)
    requires Names(index, entries)
    ensures Indexes(index, entries, [])
  {
    forall key
      ensures Get(index, key) == if FirstNamed(entries, key).Some? then FirstNamed(entries, key) else FirstAliased([], key)
    {
    }
  }

  /** Two passes: full names first, then aliases where nothing is there yet. */
  method IndexPrices(entries: seq<Entry>) returns (index: map<string, Entry>)
    ensures forall key :: Get(index, key) == Lookup(entries, key)
  {
    hide Names, Indexes, FillAliases;
    index := map[];
    NothingIndexed(entries);
    for i := 0 to |entries|
      invariant Names(index, entries[..i])
    {
      NameStep(index, entries, i);
      if entries[i].name == "" {
        continue;
      }
      if entries[i].name !in index {
        index := index[entries[i].name := entries[i]];
      }
    }
    assert entries[..|entries|] == entries;
    NamesAreIndexed(index, entries);
    for i := 0 to |entries|
      invariant Indexes(index, entries, entries[..i])
    {
      AliasStep(index, entries, i);
      if entries[i].name == "" {
        continue;
      }
      index := AddAliases(index, entries[i]);
    }
    IndexedAll(index, entries);
  }

  lemma IndexedAll(index: map<string, Entry>, entries: seq<Entry>)
    requires Indexes(index, entries, entries[..|entries|])
    ensures forall key :: Get(index, key) == Lookup(entries, key)
  {
    assert entries[..|entries|] == entries;
  }

  method AddAliases(before: map<string, Entry>, e: Entry) returns (index: map<string, Entry>)
    ensures index == FillAliases(before, e)
  {
    index := before;
    var aliases := Aliases(e.name);
    hide TrimVendorPrefix, TrimDate;
    index := AddAlias(index, aliases[0], e);
    index := AddAlias(index, aliases[1], e);
    index := AddAlias(index, aliases[2], e);
  }

  method AddAlias(before: map<string, Entry>, alias: string, e: Entry) returns (index: map<string, Entry>)
    ensures index == Fill(before, alias, e)
  {
    index := before;
    if alias == "" {
      return;
    }
    if alias !in index {
      index := index[alias := e];
    }
  }

  // ---------- matching ----------

  /** The names to look for, best first. */
  function CandidateNames(name: string): seq<string> {
    if name == "" then [] else [name] + Aliases(name)
  }

  function FirstHit(entries: seq<Entry>, names: seq<string>): Option<Entry> {
    if names == [] then None
    else if names[0] != "" && Lookup(entries, names[0]).Some? then Lookup(entries, names[0])
    else FirstHit(entries, names[1..])
  }

  method MatchPrice(index: map<string, Entry>, ghost entries: seq<Entry>, name: string) returns (hit: Option<Entry>)
    requires forall key :: Get(index, key) == Lookup(entries, key)
    ensures hit == FirstHit(entries, CandidateNames(name))
  {
    var names := CandidateNames(name);
    hide CandidateNames, Lookup;
    var seen: set<string> := {};
    for i := 0 to |names|
      invariant FirstHit(entries, names) == FirstHit(entries, names[i..])
      invariant forall n :: n in seen ==> Lookup(entries, n).None?
    {
      assert names[i..][0] == names[i] && names[i..][1..] == names[i + 1..];
      assert Get(index, names[i]) == Lookup(entries, names[i]);
      if names[i] == "" || names[i] in seen {
        continue;
      }
      seen := seen + {names[i]};
      if names[i] in index {
        return Some(index[names[i]]);
      }
    }
    assert names[|names|..] == [];
    return None;
  }

  lemma {:induction false} NamedIsThere(entries: seq<Entry>, key: string)
    ensures FirstNamed(entries, key).Some? <==> key != "" && exists e :: e in entries && e.name == key
    ensures FirstNamed(entries, key).Some? ==> FirstNamed(entries, key).value in entries && FirstNamed(entries, key).value.name == key
  {
    if entries != [] {
      var init, last := entries[..|entries| - 1], entries[|entries| - 1];
      assert entries == init + [last];
      NamedIsThere(init, key);
    }
  }

  lemma {:induction false} AliasedIsThere(entries: seq<Entry>, key: string)
    ensures FirstAliased(entries, key).Some? <==> exists e :: e in entries && HasAlias(e, key)
  {
    hide HasAlias;
    if entries != [] {
      var init, last := entries[..|entries| - 1], entries[|entries| - 1];
      assert entries == init + [last];
      AliasedIsThere(init, key);
    }
  }

  /** A model whose exact name is in the table gets the first entry of that name, whatever aliases others have. */
  lemma ExactNameWins(entries: seq<Entry>, name: string, e: Entry)
    requires name != "" && e in entries && e.name == name
    ensures FirstHit(entries, CandidateNames(name)) == FirstNamed(entries, name)
    ensures FirstNamed(entries, name).Some? && FirstNamed(entries, name).value.name == name
  {
    hide Aliases;
    NamedIsThere(entries, name);
    assert CandidateNames(name)[0] == name;
  }

  lemma {:induction false} MissesExactly(entries: seq<Entry>, names: seq<string>)
    ensures FirstHit(entries, names).None? <==>
            forall i :: 0 <= i < |names| && names[i] != "" ==> Lookup(entries, names[i]).None?
  {
    hide Lookup;
    if names != [] {
      MissesExactly(entries, names[1..]);
      assert forall i :: 0 <= i < |names[1..]| ==> names[1..][i] == names[i + 1];
      if FirstHit(entries, names[1..]).None? && (names[0] == "" || Lookup(entries, names[0]).None?) {
        forall i | 0 <= i < |names| && names[i] != ""
          ensures Lookup(entries, names[i]).None?
        {
          assert i > 0 ==> names[1..][i - 1] == names[i];
        }
      }
    }
  }

  /** A match is missed exactly when no candidate name is the name or an alias of any entry. */
  lemma MissedOnlyWithoutAnyName(entries: seq<Entry>, name: string)
    ensures FirstHit(entries, CandidateNames(name)).None? <==>
            forall c, e :: c in CandidateNames(name) && c != "" && e in entries ==> e.name != c && !HasAlias(e, c)
  {
    hide CandidateNames, FirstNamed, FirstAliased, HasAlias;
    var names := CandidateNames(name);
    MissesExactly(entries, names);
    forall c | c in names && c != ""
      ensures Lookup(entries, c).None? <==> forall e :: e in entries ==> e.name != c && !HasAlias(e, c)
    {
      NamedIsThere(entries, c);
      AliasedIsThere(entries, c);
    }
    forall i | 0 <= i < |names|
      ensures names[i] in names
    {
    }
  }
}
