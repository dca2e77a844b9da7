/** internal/evaluation/adapter.go, 186-366: the identity of a candidate reviewer, its validation
    and the bytes its digest is taken over. */
module Identity {
  import opened Ordering
  import opened Encoding
  import opened Text

  datatype Entry = Entry(key: string, value: string)

  /** values lists the entries of the Go map in the order an iteration happens to yield them; a map
      has each key once. */
  datatype Settings = Settings(known: bool, values: seq<Entry>)

  datatype NameSet = NameSet(known: bool, names: seq<string>)

  datatype CandidateIdentity = CandidateIdentity(
    adapterName: string, adapterVersion: string,
    modelId: string, modelRevision: string,
    runtimeName: string, runtimeVersion: string,
    reasoning: Settings, generation: Settings,
    promptVersion: string,
    tools: NameSet, observers: NameSet,
    accountPool: string
  )

  ghost predicate IsMap(values: seq<Entry>) {
    forall i, j :: 0 <= i < j < |values| ==> values[i].key != values[j].key
  }

  ghost predicate ValidSettings(s: Settings) {
    && (!s.known ==> s.values == [])
    && (forall e :: e in s.values ==> e.key != "")
  }

  ghost predicate ValidNames(n: NameSet) {
    (!n.known ==> n.names == []) && "" !in n.names && Distinct(n.names)
  }

  function Strings(c: CandidateIdentity): seq<string> {
    [c.adapterName, c.adapterVersion, c.modelId, c.modelRevision,
     c.runtimeName, c.runtimeVersion, c.promptVersion, c.accountPool]
  }

  ghost predicate Valid(c: CandidateIdentity) {
    && (forall v :: v in Strings(c) ==> !Blank(v))
    && ValidSettings(c.reasoning) && ValidSettings(c.generation)
    && ValidNames(c.tools) && ValidNames(c.observers)
  }

  ghost predicate HasMaps(c: CandidateIdentity) {
    IsMap(c.reasoning.values) && IsMap(c.generation.values)
  }

  method ValidateSettings(s: Settings) returns (ok: bool)
    ensures ok <==> ValidSettings(s)
  {
    if !s.known && |s.values| > 0 {
      return false;
    }
    for i := 0 to |s.values|
      invariant forall k :: 0 <= k < i ==> s.values[k].key != ""
    {
      if s.values[i].key == "" {
        return false;
      }
    }
    return true;
  }

  method ValidateNames(n: NameSet) returns (ok: bool)
    ensures ok <==> ValidNames(n)
  {
    if !n.known && |n.names| > 0 {
      return false;
    }
    var seen := {};
    for i := 0 to |n.names|
      invariant seen == set k | 0 <= k < i :: n.names[k]
      invariant Distinct(n.names[..i]) && "" !in n.names[..i]
    {
      if n.names[i] == "" || n.names[i] in seen {
        return false;
      }
      seen := seen + {n.names[i]};
    }
    assert n.names[..|n.names|] == n.names;
    return true;
  }

  method Validate(c: CandidateIdentity) returns (ok: bool)
    ensures ok <==> Valid(c)
  {
    var strings := Strings(c);
    for i := 0 to |strings|
      invariant forall k :: 0 <= k < i ==> !Blank(strings[k])
    {
      if Blank(strings[i]) {
        return false;
      }
    }
    ok := ValidateSettings(c.reasoning);
    if ok {
      ok := ValidateSettings(c.generation);
    }
    if ok {
      ok := ValidateNames(c.tools);
    }
    if ok {
      ok := ValidateNames(c.observers);
    }
  }

  const HEADER := "odonian-candidate-identity/v1"

  function Bool(b: bool): string {
    if b then "true" else "false"
  }

  predicate ByKey(e: Entry, f: Entry) {
    Before(e.key, f.key)
  }

  function StringFields(c: CandidateIdentity): seq<string> {
    ["adapter_name", c.adapterName, "adapter_version", c.adapterVersion,
     "model_id", c.modelId, "model_revision", c.modelRevision,
     "runtime_name", c.runtimeName, "runtime_version", c.runtimeVersion,
     "prompt_version", c.promptVersion, "account_pool", c.accountPool]
  }

  function EntryFields(entries: seq<Entry>): seq<string> {
    if entries == [] then []
    else
      var last := entries[|entries| - 1];
      EntryFields(entries[..|entries| - 1]) + [last.key, last.value]
  }

  function Head(name: string, known: bool, count: nat): seq<string> {
    [name, Bool(known), Decimal(count)]
  }

  function SettingsFields(name: string, s: Settings): seq<string> {
    Head(name, s.known, |s.values|) + EntryFields(SortBy(s.values, ByKey))
  }

  function NameFields(name: string, n: NameSet): seq<string> {
    Head(name, n.known, |n.names|) + SortBy(n.names, Before)
  }

  function Fields(c: CandidateIdentity): seq<string> {
    [HEADER] + StringFields(c)
    + (SettingsFields("reasoning_settings", c.reasoning)
       + (SettingsFields("generation_settings", c.generation)
          + (NameFields("tools", c.tools) + NameFields("observers", c.observers))))
  }

  /** The bytes that are hashed. */
  function Preimage(c: CandidateIdentity): string {
    Encode(Fields(c))
  }

  method PutAll(h: Hash, list: seq<string>)
    requires h.Valid()
    modifies h
    ensures h.Valid() && h.fields == old(h.fields) + list
  {
    for i := 0 to |list|
      invariant h.Valid() && h.fields == old(h.fields) + list[..i]
    {
      h.Put(list[i]);
    }
    assert list[..|list|] == list;
  }

  method PutEntries(h: Hash, entries: seq<Entry>)
    requires h.Valid()
    modifies h
    ensures h.Valid() && h.fields == old(h.fields) + EntryFields(entries)
  {
    for i := 0 to |entries|
      invariant h.Valid() && h.fields == old(h.fields) + EntryFields(entries[..i])
    {
      h.Put(entries[i].key);
      h.Put(entries[i].value);
      assert entries[..i + 1][..i] == entries[..i];
    }
    assert entries[..|entries|] == entries;
  }

  method PutHead(h: Hash, name: string, known: bool, count: nat)
    requires h.Valid()
    modifies h
    ensures h.Valid() && h.fields == old(h.fields) + Head(name, known, count)
  {
    h.Put(name);
    h.Put(if known then "true" else "false");
    h.Put(Decimal(count));
  }

  method PutSettings(h: Hash, name: string, s: Settings)
    requires h.Valid()
    modifies h
    ensures h.Valid() && h.fields == old(h.fields) + SettingsFields(name, s)
  {
    var sorted := SortBy(s.values, ByKey);
    ghost var start, head, rest := h.fields, Head(name, s.known, |s.values|), EntryFields(sorted);
    PutHead(h, name, s.known, |s.values|);
    PutEntries(h, sorted);
    Regroup(start, head, rest);
  }

  method PutNames(h: Hash, name: string, n: NameSet)
    requires h.Valid()
    modifies h
    ensures h.Valid() && h.fields == old(h.fields) + NameFields(name, n)
  {
    var sorted := SortBy(n.names, Before);
    ghost var start, head := h.fields, Head(name, n.known, |n.names|);
    PutHead(h, name, n.known, |n.names|);
    PutAll(h, sorted);
    Regroup(start, head, sorted);
  }

  method Digest(c: CandidateIdentity) returns (bytes: string)
    ensures bytes == Preimage(c)
  {
    var h := new Hash();
    h.Put(HEADER);
    PutAll(h, StringFields(c));
    PutSettings(h, "reasoning_settings", c.reasoning);
    PutSettings(h, "generation_settings", c.generation);
    PutNames(h, "tools", c.tools);
    PutNames(h, "observers", c.observers);
    bytes := h.written;
    RegroupAll([HEADER], StringFields(c), SettingsFields("reasoning_settings", c.reasoning),
               SettingsFields("generation_settings", c.generation), NameFields("tools", c.tools), NameFields("observers", c.observers));
  }

  lemma Regroup(a: seq<string>, b: seq<string>, c: seq<string>)
    ensures a + b + c == a + (b + c)
  {}

  lemma RegroupAll(a: seq<string>, b: seq<string>, c: seq<string>, d: seq<string>, e: seq<string>, f: seq<string>)
    ensures [] + a + b + c + d + e + f == a + b + (c + (d + (e + f)))
  {}

  ghost predicate SameSettings(s: Settings, t: Settings) {
    s.known == t.known && forall e :: e in s.values <==> e in t.values
  }

  ghost predicate SameNames(m: NameSet, n: NameSet) {
    m.known == n.known && forall x :: x in m.names <==> x in n.names
  }

  /** Equal but for the order of map entries and names. */
  ghost predicate SameIdentity(c: CandidateIdentity, d: CandidateIdentity) {
    && Strings(c) == Strings(d)
    && SameSettings(c.reasoning, d.reasoning) && SameSettings(c.generation, d.generation)
    && SameNames(c.tools, d.tools) && SameNames(c.observers, d.observers)
  }

  lemma {:induction false} EntryFieldsLength(a: seq<Entry>)
    ensures |EntryFields(a)| == 2 * |a|
    decreases |a|
  {
    if a != [] {
      EntryFieldsLength(a[..|a| - 1]);
    }
  }

  lemma {:induction false} EntriesInjective(a: seq<Entry>, b: seq<Entry>)
    requires EntryFields(a) == EntryFields(b)
    ensures a == b
    decreases |a|
  {
    EntryFieldsLength(a);
    EntryFieldsLength(b);
    if a != [] {
      var a', e, b', f := a[..|a| - 1], a[|a| - 1], b[..|b| - 1], b[|b| - 1];
      EntryFieldsLength(a');
      EntryFieldsLength(b');
      SplitAt(EntryFields(a'), [e.key, e.value], EntryFields(b'), [f.key, f.value]);
      assert [e.key, e.value][0] == [f.key, f.value][0] && [e.key, e.value][1] == [f.key, f.value][1];
      EntriesInjective(a', b');
      assert a == a' + [e] && b == b' + [f];
    }
  }

  lemma KeysOrder(values: seq<Entry>)
    requires IsMap(values)
    ensures Orders(ByKey, values) && Distinct(values)
  {
    BeforeIsStrictOrder();
  }

  /** Two maps have the same entries exactly when they sort to the same list. */
  lemma MapIsSortedList(a: seq<Entry>, b: seq<Entry>)
    requires IsMap(a) && IsMap(b)
    ensures SortBy(a, ByKey) == SortBy(b, ByKey) <==> forall e :: e in a <==> e in b
  {
    KeysOrder(a);
    KeysOrder(b);
    SortIsCanonical(a, b, ByKey);
    if multiset(a) == multiset(b) {
      SameBag(a, b);
    }
    if forall e :: e in a <==> e in b {
      SameMembersSameBag(a, b);
    }
  }

  lemma SetIsSortedList(a: seq<string>, b: seq<string>)
    requires Distinct(a) && Distinct(b)
    ensures SortBy(a, Before) == SortBy(b, Before) <==> forall x :: x in a <==> x in b
  {
    BeforeIsStrictOrder();
    StrictOrders(Before, a);
    StrictOrders(Before, b);
    SortIsCanonical(a, b, Before);
    if multiset(a) == multiset(b) {
      SameBag(a, b);
    }
    if forall x :: x in a <==> x in b {
      SameMembersSameBag(a, b);
    }
  }

  lemma SortedLengths<T(!new)>(s: seq<T>, lt: (T, T) -> bool)
    ensures |SortBy(s, lt)| == |s|
  {
    SameBag(SortBy(s, lt), s);
  }

  lemma SplitAt(a: seq<string>, r: seq<string>, b: seq<string>, q: seq<string>)
    requires a + r == b + q && |a| == |b|
    ensures a == b && r == q
  {
    assert a == (a + r)[..|a|] && b == (b + q)[..|b|];
    assert r == (a + r)[|a|..] && q == (b + q)[|b|..];
  }

  /** The count in the head says where a section ends. */
  lemma HeadsAgree(name: string, k: bool, m: nat, l: bool, n: nat, r: seq<string>, q: seq<string>)
    requires Head(name, k, m) + r == Head(name, l, n) + q
    ensures k == l && m == n && r == q
  {
    SplitAt(Head(name, k, m), r, Head(name, l, n), q);
    assert Head(name, k, m)[1] == Head(name, l, n)[1] && Head(name, k, m)[2] == Head(name, l, n)[2];
    assert Bool(true)[0] != Bool(false)[0];
    DecimalIsInjective(m, n);
  }

  lemma SectionSplit(name: string, k: bool, m: nat, a: seq<string>, r: seq<string>, l: bool, n: nat, b: seq<string>, q: seq<string>)
    requires m == n ==> |a| == |b|
    ensures Head(name, k, m) + a + r == Head(name, l, n) + b + q <==> k == l && m == n && a == b && r == q
  {
    assert Head(name, k, m) + a + r == Head(name, k, m) + (a + r);
    assert Head(name, l, n) + b + q == Head(name, l, n) + (b + q);
    if Head(name, k, m) + a + r == Head(name, l, n) + b + q {
      HeadsAgree(name, k, m, l, n, a + r, b + q);
      SplitAt(a, r, b, q);
    }
  }

  function SortedEntries(s: Settings): seq<string> {
    EntryFields(SortBy(s.values, ByKey))
  }

  lemma SameSortedEntries(s: Settings, t: Settings)
    requires IsMap(s.values) && IsMap(t.values)
    ensures |SortedEntries(s)| == 2 * |s.values| && |SortedEntries(t)| == 2 * |t.values|
    ensures (|s.values| == |t.values| && SortedEntries(s) == SortedEntries(t)) <==> forall e :: e in s.values <==> e in t.values
  {
    SortedLengths(s.values, ByKey);
    SortedLengths(t.values, ByKey);
    EntryFieldsLength(SortBy(s.values, ByKey));
    EntryFieldsLength(SortBy(t.values, ByKey));
    MapIsSortedList(s.values, t.values);
    if |s.values| == |t.values| && SortedEntries(s) == SortedEntries(t) {
      EntriesInjective(SortBy(s.values, ByKey), SortBy(t.values, ByKey));
    }
  }

  lemma SettingsSplit(name: string, s: Settings, r: seq<string>, t: Settings, q: seq<string>)
    requires IsMap(s.values) && IsMap(t.values)
    ensures SettingsFields(name, s) + r == SettingsFields(name, t) + q <==> SameSettings(s, t) && r == q
  {
    SameSortedEntries(s, t);
    SectionSplit(name, s.known, |s.values|, SortedEntries(s), r, t.known, |t.values|, SortedEntries(t), q);
  }

  lemma SameSortedNames(m: NameSet, n: NameSet)
    requires Distinct(m.names) && Distinct(n.names)
    ensures |SortBy(m.names, Before)| == |m.names| && |SortBy(n.names, Before)| == |n.names|
    ensures SortBy(m.names, Before) == SortBy(n.names, Before) <==> forall x :: x in m.names <==> x in n.names
  {
    SortedLengths(m.names, Before);
    SortedLengths(n.names, Before);
    SetIsSortedList(m.names, n.names);
  }

  lemma NamesSplit(name: string, m: NameSet, r: seq<string>, n: NameSet, q: seq<string>)
    requires Distinct(m.names) && Distinct(n.names)
    ensures NameFields(name, m) + r == NameFields(name, n) + q <==> SameNames(m, n) && r == q
  {
    SameSortedNames(m, n);
    SectionSplit(name, m.known, |m.names|, SortBy(m.names, Before), r, n.known, |n.names|, SortBy(n.names, Before), q);
  }

  lemma StringsSplit(c: CandidateIdentity, r: seq<string>, d: CandidateIdentity, q: seq<string>)
    ensures [HEADER] + StringFields(c) + r == [HEADER] + StringFields(d) + q <==> Strings(c) == Strings(d) && r == q
  {
    var a, b := [HEADER] + StringFields(c), [HEADER] + StringFields(d);
    if a + r == b + q {
      SplitAt(a, r, b, q);
      assert forall i :: 0 <= i < 8 ==> Strings(c)[i] == a[2 + 2 * i];
      assert forall i :: 0 <= i < 8 ==> Strings(d)[i] == b[2 + 2 * i];
    }
    if Strings(c) == Strings(d) {
      assert forall i :: 0 <= i < 8 ==> StringFields(c)[2 * i + 1] == Strings(c)[i] == Strings(d)[i] == StringFields(d)[2 * i + 1];
      assert StringFields(c) == StringFields(d);
    }
  }

  lemma FieldsAreExact(c: CandidateIdentity, d: CandidateIdentity)
    requires HasMaps(c) && HasMaps(d)
    requires Distinct(c.tools.names) && Distinct(d.tools.names) && Distinct(c.observers.names) && Distinct(d.observers.names)
    ensures Fields(c) == Fields(d) <==> SameIdentity(c, d)
  {
    var o, o' := NameFields("observers", c.observers), NameFields("observers", d.observers);
    var t, t' := NameFields("tools", c.tools) + o, NameFields("tools", d.tools) + o';
    var g, g' := SettingsFields("generation_settings", c.generation) + t, SettingsFields("generation_settings", d.generation) + t';
    var r, r' := SettingsFields("reasoning_settings", c.reasoning) + g, SettingsFields("reasoning_settings", d.reasoning) + g';
    StringsSplit(c, r, d, r');
    SettingsSplit("reasoning_settings", c.reasoning, g, d.reasoning, g');
    SettingsSplit("generation_settings", c.generation, t, d.generation, t');
    NamesSplit("tools", c.tools, o, d.tools, o');
    assert o + [] == o && o' + [] == o';
    NamesSplit("observers", c.observers, [], d.observers, []);
  }

  /** Two valid identities hash the same bytes exactly when every string, every known flag, both
      setting maps and both name sets are equal, whatever order the maps and lists happen to be in. */
  lemma PreimageIsExact(c: CandidateIdentity, d: CandidateIdentity)
    requires Valid(c) && Valid(d) && HasMaps(c) && HasMaps(d)
    requires AllFit(Fields(c)) && AllFit(Fields(d))
    ensures Preimage(c) == Preimage(d) <==> SameIdentity(c, d)
  {
    EncodeIsInjective(Fields(c), Fields(d));
    FieldsAreExact(c, d);
  }
}
