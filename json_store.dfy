/** The file-per-record JSON store. A directory is a sequence of entries in file-name
    order (the order os.ReadDir lists them in); a file holds a parsed record or cannot
    be read. Ledgers (one file per owner id) and the two singleton files are slots. */
module JsonStore {
  import opened Wrappers
  import opened Models
  import opened Text
  import opened Sorting

  datatype Content<T> = Parsed(value: T) | Unreadable

  datatype Entry<T> = Entry(name: string, isDir: bool, content: Content<T>)

  /** A directory that does not exist, one that cannot be listed, or its entries. */
  datatype Dir<T> = Missing | Unlistable | Listed(entries: seq<Entry<T>>)

  /** A single file: absent, present but unreadable, or holding a value. */
  datatype Slot<T> = Absent | Corrupt | Stored(value: T)

  // ---------------------------------------------------------------- file names

  /** Entries are listed in strictly increasing name order. */
  ghost predicate Sorted<T>(entries: seq<Entry<T>>) {
    forall i, j :: 0 <= i < j < |entries| ==> LexLess(entries[i].name, entries[j].name)
  }

  ghost predicate ValidDir<T>(d: Dir<T>) {
    d.Listed? ==> Sorted(d.entries)
  }

  /** Names in a sorted directory are distinct. */
  lemma SortedDistinct<T>(entries: seq<Entry<T>>, i: int, j: int)
    requires Sorted(entries) && 0 <= i < |entries| && 0 <= j < |entries| && i != j
    ensures entries[i].name != entries[j].name
  {
    if i < j { LexLessIrreflexive(entries[i].name); } else { LexLessIrreflexive(entries[j].name); }
  }

  /** The file a record is saved in: its id with ".json". */
  function FileName(id: string): (name: string)
    ensures EndsWith(name, ".json") && |name| == |id| + 5 && name[..|id|] == id
  {
    id + ".json"
  }

  /** SaveEmployee's file name: "emp_" followed by the id with every "emp_" removed when
      the id starts with "emp_", the id itself otherwise. */
  function EmployeeFileName(id: string): (name: string)
    ensures EndsWith(name, ".json")
    ensures StartsWith(id, "emp_") ==> StartsWith(name, "emp_")
    ensures !StartsWith(id, "emp_") ==> name == FileName(id)
  {
    if StartsWith(id, "emp_") then "emp_" + RemoveAll(id, "emp_") + ".json" else FileName(id)
  }

  /** Two different employee ids share one file: saving one overwrites the other. */
  lemma EmployeeFileNameCollides()
    ensures EmployeeFileName("emp_1") == EmployeeFileName("emp_emp_1") == "emp_1.json"
  {
    assert StartsWith("emp_1", "emp_");
    assert StartsWith("emp_emp_1", "emp_");
    assert !StartsWith("1", "emp_");
    assert RemoveAll("", "emp_") == "";
    assert RemoveAll("1", "emp_") == "1";
    assert RemoveAll("emp_1", "emp_") == "1";
    assert RemoveAll("emp_emp_1", "emp_") == "1";
  }

  // ---------------------------------------------------------------- listing

  /** A file readFromDirectory reports for a name prefix. */
  predicate Listable<T>(e: Entry<T>, prefix: string) {
    !e.isDir && EndsWith(e.name, ".json") && StartsWith(e.name, prefix)
  }

  function FilterListable<T>(entries: seq<Entry<T>>, prefix: string): seq<Entry<T>> {
    if entries == [] then []
    else
      var rest := FilterListable(entries[..|entries| - 1], prefix);
      var e := entries[|entries| - 1];
      if Listable(e, prefix) then rest + [e] else rest
  }

  /** Only listable entries of the directory are kept. */
  lemma {:induction false} FilterListableSound<T>(entries: seq<Entry<T>>, prefix: string)
    ensures forall i :: 0 <= i < |FilterListable(entries, prefix)| ==>
              Listable(FilterListable(entries, prefix)[i], prefix) && FilterListable(entries, prefix)[i] in entries
  {
    if entries != [] {
      var init := entries[..|entries| - 1];
      FilterListableSound(init, prefix);
      var rest := FilterListable(init, prefix);
      var r := FilterListable(entries, prefix);
      assert r == if Listable(entries[|entries| - 1], prefix) then rest + [entries[|entries| - 1]] else rest;
      forall i | 0 <= i < |r| ensures Listable(r[i], prefix) && r[i] in entries {
        if i < |rest| {
          assert r[i] == rest[i];
          assert rest[i] in init;
          var m :| 0 <= m < |init| && init[m] == rest[i];
          assert entries[m] == init[m];
        }
      }
    }
  }

  /** Every listable entry is kept. */
  lemma {:induction false} FilterListableComplete<T>(entries: seq<Entry<T>>, prefix: string, k: int)
    requires 0 <= k < |entries| && Listable(entries[k], prefix)
    ensures entries[k] in FilterListable(entries, prefix)
  {
    if k < |entries| - 1 {
      FilterListableComplete(entries[..|entries| - 1], prefix, k);
    }
  }

  /** readFromDirectory: the listable files of a directory; a missing directory has none,
      an unlistable one is an error. */
  function JsonFiles<T>(d: Dir<T>, prefix: string): (r: Result<seq<Entry<T>>>)
    ensures d.Missing? ==> r == Ok([])
    ensures r.Err? <==> d.Unlistable?
  {
    match d
    case Missing => Ok([])
    case Unlistable => Err(Internal)
    case Listed(entries) => Ok(FilterListable(entries, prefix))
  }

  /** The listed files are exactly the listable entries of the directory. */
  lemma JsonFilesSpec<T>(d: Dir<T>, prefix: string)
    ensures var r := JsonFiles(d, prefix);
      r.Ok? ==> forall i :: 0 <= i < |r.value| ==> Listable(r.value[i], prefix) && d.Listed? && r.value[i] in d.entries
    ensures var r := JsonFiles(d, prefix);
      r.Ok? && d.Listed? ==> forall k :: 0 <= k < |d.entries| && Listable(d.entries[k], prefix) ==> d.entries[k] in r.value
  {
    if d.Listed? {
      FilterListableSound(d.entries, prefix);
      forall k | 0 <= k < |d.entries| && Listable(d.entries[k], prefix) {
        FilterListableComplete(d.entries, prefix, k);
      }
    }
  }

  /** The records of the readable files, in order; unreadable files are skipped. */
  function Records<T>(files: seq<Entry<T>>): (r: seq<T>)
    ensures |r| <= |files|
  {
    if files == [] then []
    else
      var rest := Records(files[..|files| - 1]);
      match files[|files| - 1].content
      case Parsed(v) => rest + [v]
      case Unreadable => rest
  }

  lemma {:induction false} RecordsMembers<T>(files: seq<Entry<T>>, v: T)
    ensures v in Records(files) <==> exists k :: 0 <= k < |files| && files[k].content == Parsed(v)
  {
    if files != [] {
      var init := files[..|files| - 1];
      RecordsMembers(init, v);
      if v in Records(init) {
        var k :| 0 <= k < |init| && init[k].content == Parsed(v);
        assert files[k] == init[k];
      }
      if exists k :: 0 <= k < |files| && files[k].content == Parsed(v) {
        var k :| 0 <= k < |files| && files[k].content == Parsed(v);
        if k < |init| { assert init[k] == files[k]; }
      }
    }
  }

  /** GetAll*: the records of the files with the type prefix. */
  function ListAll<T>(d: Dir<T>, prefix: string): Result<seq<T>> {
    match JsonFiles(d, prefix)
    case Ok(files) => Ok(Records(files))
    case Err(e) => Err(e)
  }

  /** A record is listed exactly when a listable file with the prefix holds it. */
  lemma ListAllMembers<T>(entries: seq<Entry<T>>, prefix: string, v: T)
    ensures ListAll(Listed(entries), prefix).Ok?
    ensures v in ListAll(Listed(entries), prefix).value
        <==> exists k :: 0 <= k < |entries| && Listable(entries[k], prefix) && entries[k].content == Parsed(v)
  {
    var files := JsonFiles(Listed(entries), prefix).value;
    JsonFilesSpec(Listed(entries), prefix);
    RecordsMembers(files, v);
    if v in Records(files) {
      var k :| 0 <= k < |files| && files[k].content == Parsed(v);
      var m :| 0 <= m < |entries| && entries[m] == files[k];
    }
    if exists k :: 0 <= k < |entries| && Listable(entries[k], prefix) && entries[k].content == Parsed(v) {
      var k :| 0 <= k < |entries| && Listable(entries[k], prefix) && entries[k].content == Parsed(v);
      assert entries[k] in files;
      var m :| 0 <= m < |files| && files[m] == entries[k];
    }
  }

  // ---------------------------------------------------------------- lookup

  /** The file holds a readable record with the id. */
  predicate Holds<T>(e: Entry<T>, id: string, idOf: T -> string) {
    e.content.Parsed? && idOf(e.content.value) == id
  }

  /** The position of the first file holding the id. */
  function FirstHolding<T>(files: seq<Entry<T>>, id: string, idOf: T -> string): (r: Option<nat>)
    ensures r.Some? ==> r.value < |files| && Holds(files[r.value], id, idOf)
                        && forall j :: 0 <= j < r.value ==> !Holds(files[j], id, idOf)
    ensures r.None? ==> forall j :: 0 <= j < |files| ==> !Holds(files[j], id, idOf)
  {
    if files == [] then None
    else if Holds(files[0], id, idOf) then Some(0)
    else match FirstHolding(files[1..], id, idOf)
      case Some(k) => Some(k + 1)
      case None => None
  }

  /** GetByID: the first record with the id among all .json files, prefix or not. */
  function FindById<T>(d: Dir<T>, id: string, idOf: T -> string): (r: Result<T>)
    ensures r.Ok? ==> idOf(r.value) == id
    ensures r == Err(NotFound) <==> JsonFiles(d, "").Ok? && FirstHolding(JsonFiles(d, "").value, id, idOf).None?
  {
    match JsonFiles(d, "")
    case Err(e) => Err(e)
    case Ok(files) =>
      match FirstHolding(files, id, idOf)
      case Some(k) => Ok(files[k].content.value)
      case None => Err(NotFound)
  }

  // ---------------------------------------------------------------- writing

  /** The entry put at its place in name order, replacing one with the same name. */
  function Upsert<T>(entries: seq<Entry<T>>, e: Entry<T>): (r: seq<Entry<T>>)
    ensures |r| <= |entries| + 1
  {
    if entries == [] then [e]
    else if entries[0].name == e.name then [e] + entries[1..]
    else if LexLess(e.name, entries[0].name) then [e] + entries
    else [entries[0]] + Upsert(entries[1..], e)
  }

  /** The upserted entry is present, nothing new besides it, and every entry with
      another name is kept. */
  lemma {:induction false} UpsertMembers<T>(entries: seq<Entry<T>>, e: Entry<T>)
    ensures e in Upsert(entries, e)
    ensures forall i :: 0 <= i < |Upsert(entries, e)| ==> Upsert(entries, e)[i] == e || Upsert(entries, e)[i] in entries
    ensures forall k :: 0 <= k < |entries| && entries[k].name != e.name ==> entries[k] in Upsert(entries, e)
  {
    if entries != [] && entries[0].name != e.name && !LexLess(e.name, entries[0].name) {
      UpsertMembers(entries[1..], e);
      var r := Upsert(entries, e);
      forall k | 0 <= k < |entries| && entries[k].name != e.name ensures entries[k] in r {
        if k > 0 { assert entries[k] == entries[1..][k - 1]; }
      }
    }
  }

  lemma {:induction false} UpsertSorted<T>(entries: seq<Entry<T>>, e: Entry<T>)
    requires Sorted(entries)
    ensures Sorted(Upsert(entries, e))
    ensures forall i :: 0 <= i < |Upsert(entries, e)| && Upsert(entries, e)[i].name == e.name ==> Upsert(entries, e)[i] == e
  {
    if entries == [] {
    } else if entries[0].name == e.name {
      forall j | 1 <= j < |entries| ensures entries[j].name != e.name {
        SortedDistinct(entries, 0, j);
      }
    } else if LexLess(e.name, entries[0].name) {
      var r := [e] + entries;
      forall i, j | 0 <= i < j < |r| ensures LexLess(r[i].name, r[j].name) {
        if i == 0 && j > 1 { LexLessTransitive(e.name, entries[0].name, entries[j - 1].name); }
      }
      forall j | 0 <= j < |entries| ensures entries[j].name != e.name {
        if j > 0 { LexLessTransitive(e.name, entries[0].name, entries[j].name); }
        LexLessIrreflexive(e.name);
      }
    } else {
      LexLessTotal(e.name, entries[0].name);
      UpsertSorted(entries[1..], e);
      UpsertMembers(entries[1..], e);
      var t := Upsert(entries[1..], e);
      var r := [entries[0]] + t;
      forall j | 0 <= j < |t| ensures LexLess(entries[0].name, t[j].name) {
        if t[j] != e {
          assert t[j] in entries[1..];
          var m :| 0 <= m < |entries[1..]| && entries[1..][m] == t[j];
        }
      }
    }
  }

  /** writeJSONFile into a directory: it fails when the directory cannot be used or the
      name is taken by a sub-directory; a missing directory is created. */
  function Write<T>(d: Dir<T>, name: string, v: T): (r: Result<Dir<T>>)
    ensures r.Ok? ==> r.value.Listed?
  {
    match d
    case Unlistable => Err(Internal)
    case Missing => Ok(Listed([Entry(name, false, Parsed(v))]))
    case Listed(entries) =>
      if exists k :: 0 <= k < |entries| && entries[k].name == name && entries[k].isDir then Err(Internal)
      else Ok(Listed(Upsert(entries, Entry(name, false, Parsed(v)))))
  }

  lemma WriteValid<T>(d: Dir<T>, name: string, v: T)
    requires ValidDir(d)
    ensures Write(d, name, v).Ok? ==> ValidDir(Write(d, name, v).value)
  {
    if d.Listed? { UpsertSorted(d.entries, Entry(name, false, Parsed(v))); }
  }

  /** Saving the same record under the same name twice is saving it once. */
  lemma {:induction false} WriteIdempotent<T>(d: Dir<T>, name: string, v: T)
    requires ValidDir(d) && Write(d, name, v).Ok?
    ensures Write(Write(d, name, v).value, name, v) == Write(d, name, v)
  {
    var e := Entry(name, false, Parsed(v));
    if d.Listed? {
      UpsertTwice(d.entries, e);
      UpsertSorted(d.entries, e);
      UpsertMembers(d.entries, e);
    } else {
      assert [e][1..] == [];
      assert Upsert([e], e) == [e];
    }
    var once := Write(d, name, v).value.entries;
    assert !exists k :: 0 <= k < |once| && once[k].name == name && once[k].isDir by {
      if d.Listed? {
        forall k | 0 <= k < |once| && once[k].name == name ensures !once[k].isDir {
          assert once[k] == e;
        }
      }
    }
  }

  lemma {:induction false} UpsertTwice<T>(entries: seq<Entry<T>>, e: Entry<T>)
    requires Sorted(entries)
    ensures Upsert(Upsert(entries, e), e) == Upsert(entries, e)
  {
    if entries == [] || entries[0].name == e.name {
    } else if LexLess(e.name, entries[0].name) {
    } else {
      UpsertTwice(entries[1..], e);
      LexLessTotal(e.name, entries[0].name);
      LexLessIrreflexive(entries[0].name);
      assert !LexLess(e.name, entries[0].name);
    }
  }

  /** Save then GetByID returns the saved record, when no other file holds its id. */
  lemma SaveThenFind<T>(d: Dir<T>, name: string, v: T, idOf: T -> string)
    requires ValidDir(d) && Write(d, name, v).Ok? && EndsWith(name, ".json")
    requires d.Listed? ==> forall k :: 0 <= k < |d.entries| && d.entries[k].name != name ==> !Holds(d.entries[k], idOf(v), idOf)
    ensures FindById(Write(d, name, v).value, idOf(v), idOf) == Ok(v)
  {
    var d' := Write(d, name, v).value;
    var e := Entry(name, false, Parsed(v));
    WriteValid(d, name, v);
    if d.Listed? { UpsertMembers(d.entries, e); }
    assert e in d'.entries;
    var files := JsonFiles(d', "").value;
    JsonFilesSpec(d', "");
    var n :| 0 <= n < |d'.entries| && d'.entries[n] == e;
    assert e in files;
    var id := idOf(v);
    forall k | 0 <= k < |files| && Holds(files[k], id, idOf) ensures files[k] == e {
      assert files[k] in d'.entries;
      if d.Listed? && files[k] != e {
        assert files[k] in d.entries;
        var m :| 0 <= m < |d.entries| && d.entries[m] == files[k];
        if files[k].name == name {
          UpsertSorted(d.entries, e);
        }
      }
    }
    var m :| 0 <= m < |files| && files[m] == e;
    assert Holds(files[m], id, idOf);
  }

  // ---------------------------------------------------------------- deleting

  /** The entries without the one with the given name. */
  function RemoveNamed<T>(entries: seq<Entry<T>>, name: string): (r: seq<Entry<T>>)
    ensures |r| <= |entries|
  {
    if entries == [] then []
    else if entries[0].name == name then RemoveNamed(entries[1..], name)
    else [entries[0]] + RemoveNamed(entries[1..], name)
  }

  /** Exactly the entries with other names are kept. */
  lemma {:induction false} RemoveNamedMembers<T>(entries: seq<Entry<T>>, name: string)
    ensures var r := RemoveNamed(entries, name);
      forall i :: 0 <= i < |r| ==> r[i] in entries && r[i].name != name
    ensures var r := RemoveNamed(entries, name);
      forall k :: 0 <= k < |entries| && entries[k].name != name ==> entries[k] in r
  {
    if entries != [] {
      RemoveNamedMembers(entries[1..], name);
      var r := RemoveNamed(entries, name);
      forall k | 0 <= k < |entries| && entries[k].name != name ensures entries[k] in r {
        if k > 0 { assert entries[k] == entries[1..][k - 1]; }
      }
    }
  }

  /** Delete*: the first file holding the id is removed; NotFound when there is none. */
  function DeleteById<T>(d: Dir<T>, id: string, idOf: T -> string): (r: Result<Dir<T>>)
    ensures r.Ok? ==> d.Listed? && r.value.Listed?
    ensures r == Err(NotFound) <==> FindById(d, id, idOf) == Err(NotFound)
    ensures r.Ok? <==> FindById(d, id, idOf).Ok?
  {
    match JsonFiles(d, "")
    case Err(e) => Err(e)
    case Ok(files) =>
      match FirstHolding(files, id, idOf)
      case Some(k) => Ok(Listed(RemoveNamed(d.entries, files[k].name)))
      case None => Err(NotFound)
  }

  /** After a delete, the deleted file is gone and every other file is kept. */
  lemma DeleteRemovesFirst<T>(d: Dir<T>, id: string, idOf: T -> string)
    requires DeleteById(d, id, idOf).Ok?
    ensures var files := JsonFiles(d, "").value;
      var k := FirstHolding(files, id, idOf).value;
      var kept := DeleteById(d, id, idOf).value.entries;
      (forall i :: 0 <= i < |kept| ==> kept[i] in d.entries && kept[i].name != files[k].name)
      && (forall j :: 0 <= j < |d.entries| && d.entries[j].name != files[k].name ==> d.entries[j] in kept)
  {
    var files := JsonFiles(d, "").value;
    RemoveNamedMembers(d.entries, files[FirstHolding(files, id, idOf).value].name);
  }

  // ---------------------------------------------------------------- slots

  /** A ledger file: absent gives the empty ledger. */
  function ReadLedger<T>(ledgers: map<string, Slot<seq<T>>>, ownerId: string): (r: Result<seq<T>>)
    ensures (ownerId !in ledgers || ledgers[ownerId].Absent?) ==> r == Ok([])
    ensures r.Err? <==> ownerId in ledgers && ledgers[ownerId].Corrupt?
    ensures ownerId in ledgers && ledgers[ownerId].Stored? ==> r == Ok(ledgers[ownerId].value)
  {
    if ownerId !in ledgers then Ok([])
    else match ledgers[ownerId]
      case Absent => Ok([])
      case Corrupt => Err(Internal)
      case Stored(v) => Ok(v)
  }

  /** The retail price configuration: a missing file gives empty price lists. */
  function ReadRetailConfig(slot: Slot<RetailPriceConfig>): (r: Result<RetailPriceConfig>)
    ensures slot.Absent? ==> r == Ok(RetailPriceConfig(Items([]), Items([]), None, None, Nil))
    ensures r.Err? <==> slot.Corrupt?
    ensures slot.Stored? ==> r == Ok(slot.value)
  {
    match slot
    case Absent => Ok(RetailPriceConfig(Items([]), Items([]), None, None, Nil))
    case Corrupt => Err(Internal)
    case Stored(c) => Ok(c)
  }

  /** The inventory: a missing file gives 0 grams. */
  function ReadInventory(slot: Slot<Inventory>): (r: Result<Inventory>)
    ensures slot.Absent? ==> r == Ok(Inventory(0.0))
    ensures r.Err? <==> slot.Corrupt?
    ensures slot.Stored? ==> r == Ok(slot.value)
  {
    match slot
    case Absent => Ok(Inventory(0.0))
    case Corrupt => Err(Internal)
    case Stored(i) => Ok(i)
  }

  /** A record saved under an id without the "emp_" prefix is found by GetEmployeeByID
      but never listed by GetAllEmployees. */
  lemma UnprefixedEmployeeHidden(d: Dir<Employee>, emp: Employee)
    requires ValidDir(d) && !StartsWith(emp.id, "emp_")
    requires Write(d, EmployeeFileName(emp.id), emp).Ok?
    requires d.Listed? ==> (forall k :: 0 <= k < |d.entries| && d.entries[k].name != EmployeeFileName(emp.id)
                                        ==> !Holds(d.entries[k], emp.id, EmployeeId))
    ensures FindById(Write(d, EmployeeFileName(emp.id), emp).value, emp.id, EmployeeId) == Ok(emp)
    ensures emp !in ListAll(Write(d, EmployeeFileName(emp.id), emp).value, "emp_").value
  {
    var name := EmployeeFileName(emp.id);
    SaveThenFind(d, name, emp, EmployeeId);
    var d' := Write(d, name, emp).value;
    NoPrefixAfterSuffix(emp.id);
    ListAllMembers(d'.entries, "emp_", emp);
    UpsertSortedIfListed(d, name, emp);
  }

  /** A record saved under an id carrying the type prefix is listed by GetAll*. */
  lemma PrefixedSaveListed<T>(d: Dir<T>, id: string, v: T, prefix: string)
    requires Write(d, FileName(id), v).Ok? && StartsWith(id, prefix)
    ensures v in ListAll(Write(d, FileName(id), v).value, prefix).value
  {
    var name := FileName(id);
    var e := Entry(name, false, Parsed(v));
    var d' := Write(d, name, v).value;
    if d.Listed? { UpsertMembers(d.entries, e); }
    assert e in d'.entries;
    var k :| 0 <= k < |d'.entries| && d'.entries[k] == e;
    assert name[..|prefix|] == id[..|prefix|];
    assert Listable(d'.entries[k], prefix);
    ListAllMembers(d'.entries, prefix, v);
  }

  lemma UpsertSortedIfListed<T>(d: Dir<T>, name: string, v: T)
    requires ValidDir(d) && Write(d, name, v).Ok?
    ensures forall i :: 0 <= i < |Write(d, name, v).value.entries| ==>
              var x := Write(d, name, v).value.entries[i];
              x == Entry(name, false, Parsed(v)) || (x.name != name && d.Listed? && x in d.entries)
  {
    if d.Listed? {
      UpsertSorted(d.entries, Entry(name, false, Parsed(v)));
      UpsertMembers(d.entries, Entry(name, false, Parsed(v)));
    }
  }

  /** id + ".json" starts with "emp_" only when the id does. */
  lemma NoPrefixAfterSuffix(id: string)
    requires !StartsWith(id, "emp_")
    ensures !StartsWith(FileName(id), "emp_")
  {
    var n := FileName(id);
    if |id| < 4 {
      assert n[|id|] == '.';
      assert "emp_"[|id|] != '.';
    } else {
      assert n[..4] == id[..4];
    }
  }

  // ---------------------------------------------------------------- the scans

  /** readFromDirectory's loop over the directory entries. */
  method ReadFromDirectory<T>(d: Dir<T>, pattern: string) returns (r: Result<seq<Entry<T>>>)
    ensures r == JsonFiles(d, pattern)
  {
    if d.Missing? {
      return Ok([]);
    }
    if d.Unlistable? {
      return Err(Internal);
    }
    var entries := d.entries;
    var files: seq<Entry<T>> := [];
    for i := 0 to |entries|
      invariant files == FilterListable(entries[..i], pattern)
    {
      assert entries[..i + 1][..i] == entries[..i];
      var entry := entries[i];
      if !entry.isDir && EndsWith(entry.name, ".json") {
        if pattern == "" || StartsWith(entry.name, pattern) {
          files := files + [entry];
        }
      }
    }
    assert entries[..|entries|] == entries;
    return Ok(files);
  }

  /** The GetAll* loop: decode each file, skipping those that fail. */
  method ReadRecords<T>(files: seq<Entry<T>>) returns (records: seq<T>)
    ensures records == Records(files)
  {
    records := [];
    for i := 0 to |files|
      invariant records == Records(files[..i])
    {
      assert files[..i + 1][..i] == files[..i];
      if files[i].content.Unreadable? {
        continue;
      }
      records := records + [files[i].content.value];
    }
    assert files[..|files|] == files;
  }

  /** The GetByID and Delete* loop: the first readable file whose record has the id. */
  method ScanForId<T>(files: seq<Entry<T>>, id: string, idOf: T -> string) returns (r: Option<nat>)
    ensures r == FirstHolding(files, id, idOf)
  {
    for i := 0 to |files|
      invariant forall j :: 0 <= j < i ==> !Holds(files[j], id, idOf)
    {
      if files[i].content.Unreadable? {
        continue;
      }
      if idOf(files[i].content.value) == id {
        FirstHoldingAt(files, id, idOf, i);
        return Some(i);
      }
    }
    FirstHoldingNone(files, id, idOf);
    return None;
  }

  lemma {:induction false} FirstHoldingAt<T>(files: seq<Entry<T>>, id: string, idOf: T -> string, i: nat)
    requires i < |files| && Holds(files[i], id, idOf)
    requires forall j :: 0 <= j < i ==> !Holds(files[j], id, idOf)
    ensures FirstHolding(files, id, idOf) == Some(i)
  {
    if i > 0 { FirstHoldingAt(files[1..], id, idOf, i - 1); }
  }

  lemma {:induction false} FirstHoldingNone<T>(files: seq<Entry<T>>, id: string, idOf: T -> string)
    requires forall j :: 0 <= j < |files| ==> !Holds(files[j], id, idOf)
    ensures FirstHolding(files, id, idOf) == None
  {
    if files != [] { FirstHoldingNone(files[1..], id, idOf); }
  }

  /** GetAll* without the sort. */
  method LoadAll<T>(d: Dir<T>, prefix: string) returns (r: Result<seq<T>>)
    ensures r == ListAll(d, prefix)
  {
    var files := ReadFromDirectory(d, prefix);
    if files.Err? {
      return Err(files.error);
    }
    var records := ReadRecords(files.value);
    return Ok(records);
  }

  /** GetByID. */
  method LoadById<T>(d: Dir<T>, id: string, idOf: T -> string) returns (r: Result<T>)
    ensures r == FindById(d, id, idOf)
  {
    var files := ReadFromDirectory(d, "");
    if files.Err? {
      return Err(files.error);
    }
    var k := ScanForId(files.value, id, idOf);
    if k.None? {
      return Err(NotFound);
    }
    return Ok(files.value[k.value].content.value);
  }

  /** Delete*: the directory after removing the first file holding the id. */
  method RemoveById<T>(d: Dir<T>, id: string, idOf: T -> string) returns (r: Result<Dir<T>>)
    ensures r == DeleteById(d, id, idOf)
  {
    var files := ReadFromDirectory(d, "");
    if files.Err? {
      return Err(files.error);
    }
    var k := ScanForId(files.value, id, idOf);
    if k.None? {
      return Err(NotFound);
    }
    return Ok(Listed(RemoveNamed(d.entries, files.value[k.value].name)));
  }

  lemma {:induction false} RemoveNamedSorted<T>(entries: seq<Entry<T>>, name: string)
    requires Sorted(entries)
    ensures Sorted(RemoveNamed(entries, name))
  {
    if entries != [] {
      var rest := entries[1..];
      var tail := RemoveNamed(rest, name);
      RemoveNamedSorted(rest, name);
      RemoveNamedMembers(rest, name);
      if entries[0].name != name {
        forall j | 0 <= j < |tail| ensures LexLess(entries[0].name, tail[j].name) {
          var m :| 0 <= m < |rest| && rest[m] == tail[j];
          assert entries[m + 1] == tail[j];
        }
        PrependSorted(entries[0], tail);
      }
    }
  }

  /** An entry named before every entry of a sorted list can go in front of it. */
  lemma PrependSorted<T>(e: Entry<T>, entries: seq<Entry<T>>)
    requires Sorted(entries)
    requires forall j :: 0 <= j < |entries| ==> LexLess(e.name, entries[j].name)
    ensures Sorted([e] + entries)
  {
    var r := [e] + entries;
    forall i, j | 0 <= i < j < |r| ensures LexLess(r[i].name, r[j].name) {
      assert r[j] == entries[j - 1];
      if i > 0 { assert r[i] == entries[i - 1]; }
    }
  }

  /** A successful delete keeps the directory in name order. */
  lemma DeleteValid<T>(d: Dir<T>, id: string, idOf: T -> string)
    requires ValidDir(d) && DeleteById(d, id, idOf).Ok?
    ensures ValidDir(DeleteById(d, id, idOf).value)
  {
    var files := JsonFiles(d, "").value;
    RemoveNamedSorted(d.entries, files[FirstHolding(files, id, idOf).value].name);
  }

  // ---------------------------------------------------------------- the store

  function Timestamp(e: WashEvent): string { e.timestamp }
  function Date(e: Expense): string { e.date }

  /** The data directory: six record directories, the two ledger directories
      (owner id to ledger file) and the two singleton files. */
  class Store {
    var employees: Dir<Employee>
    var counterAgents: Dir<CounterAgent>
    var aggregators: Dir<Aggregator>
    var washEvents: Dir<WashEvent>
    var expenses: Dir<Expense>
    var salarySchemes: Dir<SalaryScheme>
    var employeeLedgers: map<string, Slot<seq<EmployeeTransaction>>>
    var clientLedgers: map<string, Slot<seq<ClientTransaction>>>
    var retailConfig: Slot<RetailPriceConfig>
    var inventory: Slot<Inventory>

    /** Every directory lists in name order. */
    ghost predicate Valid()
      reads this`employees, this`counterAgents, this`aggregators
      reads this`washEvents, this`expenses, this`salarySchemes
    {
      ValidDir(employees) && ValidDir(counterAgents) && ValidDir(aggregators)
      && ValidDir(washEvents) && ValidDir(expenses) && ValidDir(salarySchemes)
    }

    /** An empty data directory. */
    constructor ()
      ensures Valid()
      ensures employees == Missing && counterAgents == Missing && aggregators == Missing
      ensures washEvents == Missing && expenses == Missing && salarySchemes == Missing
      ensures employeeLedgers == map[] && clientLedgers == map[]
      ensures retailConfig == Absent && inventory == Absent
    {
      employees, counterAgents, aggregators := Missing, Missing, Missing;
      washEvents, expenses, salarySchemes := Missing, Missing, Missing;
      employeeLedgers, clientLedgers := map[], map[];
      retailConfig, inventory := Absent, Absent;
    }

    // ---- employees

    method GetAllEmployees() returns (r: Result<seq<Employee>>)
      ensures r == ListAll(employees, "emp_")
    {
      r := LoadAll(employees, "emp_");
    }

    method GetEmployeeByID(id: string) returns (r: Result<Employee>)
      ensures r == FindById(employees, id, EmployeeId)
    {
      r := LoadById(employees, id, EmployeeId);
    }

    method SaveEmployee(emp: Employee) returns (r: Outcome)
      requires Valid()
      modifies this`employees
      ensures Valid()
      ensures var w := Write(old(employees), EmployeeFileName(emp.id), emp);
        if w.Ok? then r == Success && employees == w.value
        else r == Failure(w.error) && employees == old(employees)
    {
      var w := Write(employees, EmployeeFileName(emp.id), emp);
      WriteValid(employees, EmployeeFileName(emp.id), emp);
      if w.Err? {
        return Failure(w.error);
      }
      employees := w.value;
      return Success;
    }

    method DeleteEmployee(id: string) returns (r: Outcome)
      requires Valid()
      modifies this`employees
      ensures Valid()
      ensures var dl := DeleteById(old(employees), id, EmployeeId);
        if dl.Ok? then r == Success && employees == dl.value
        else r == Failure(dl.error) && employees == old(employees)
    {
      var dl := RemoveById(employees, id, EmployeeId);
      if dl.Err? {
        return Failure(dl.error);
      }
      DeleteValid(employees, id, EmployeeId);
      employees := dl.value;
      return Success;
    }

    // ---- counter agents

    method GetAllCounterAgents() returns (r: Result<seq<CounterAgent>>)
      ensures r == ListAll(counterAgents, "agent_")
    {
      r := LoadAll(counterAgents, "agent_");
    }

    method GetCounterAgentByID(id: string) returns (r: Result<CounterAgent>)
      ensures r == FindById(counterAgents, id, CounterAgentId)
    {
      r := LoadById(counterAgents, id, CounterAgentId);
    }

    method SaveCounterAgent(agent: CounterAgent) returns (r: Outcome)
      requires Valid()
      modifies this`counterAgents
      ensures Valid()
      ensures var w := Write(old(counterAgents), FileName(agent.id), agent);
        if w.Ok? then r == Success && counterAgents == w.value
        else r == Failure(w.error) && counterAgents == old(counterAgents)
    {
      var w := Write(counterAgents, FileName(agent.id), agent);
      WriteValid(counterAgents, FileName(agent.id), agent);
      if w.Err? {
        return Failure(w.error);
      }
      counterAgents := w.value;
      return Success;
    }

    method DeleteCounterAgent(id: string) returns (r: Outcome)
      requires Valid()
      modifies this`counterAgents
      ensures Valid()
      ensures var dl := DeleteById(old(counterAgents), id, CounterAgentId);
        if dl.Ok? then r == Success && counterAgents == dl.value
        else r == Failure(dl.error) && counterAgents == old(counterAgents)
    {
      var dl := RemoveById(counterAgents, id, CounterAgentId);
      if dl.Err? {
        return Failure(dl.error);
      }
      DeleteValid(counterAgents, id, CounterAgentId);
      counterAgents := dl.value;
      return Success;
    }

    // ---- aggregators

    method GetAllAggregators() returns (r: Result<seq<Aggregator>>)
      ensures r == ListAll(aggregators, "agg_")
    {
      r := LoadAll(aggregators, "agg_");
    }

    method GetAggregatorByID(id: string) returns (r: Result<Aggregator>)
      ensures r == FindById(aggregators, id, AggregatorId)
    {
      r := LoadById(aggregators, id, AggregatorId);
    }

    method SaveAggregator(agg: Aggregator) returns (r: Outcome)
      requires Valid()
      modifies this`aggregators
      ensures Valid()
      ensures var w := Write(old(aggregators), FileName(agg.id), agg);
        if w.Ok? then r == Success && aggregators == w.value
        else r == Failure(w.error) && aggregators == old(aggregators)
    {
      var w := Write(aggregators, FileName(agg.id), agg);
      WriteValid(aggregators, FileName(agg.id), agg);
      if w.Err? {
        return Failure(w.error);
      }
      aggregators := w.value;
      return Success;
    }

    method DeleteAggregator(id: string) returns (r: Outcome)
      requires Valid()
      modifies this`aggregators
      ensures Valid()
      ensures var dl := DeleteById(old(aggregators), id, AggregatorId);
        if dl.Ok? then r == Success && aggregators == dl.value
        else r == Failure(dl.error) && aggregators == old(aggregators)
    {
      var dl := RemoveById(aggregators, id, AggregatorId);
      if dl.Err? {
        return Failure(dl.error);
      }
      DeleteValid(aggregators, id, AggregatorId);
      aggregators := dl.value;
      return Success;
    }

    // ---- wash events

    /** All wash events, newest first; equal timestamps may come in any order. */
    method GetAllWashEvents() returns (r: Result<seq<WashEvent>>)
      ensures r.Ok? <==> ListAll(washEvents, "we_").Ok?
      ensures r.Err? ==> r == ListAll(washEvents, "we_")
      ensures r.Ok? ==> multiset(r.value) == multiset(ListAll(washEvents, "we_").value)
                        && SortedDescByText(r.value, Timestamp)
    {
      r := LoadAll(washEvents, "we_");
      if r.Ok? {
        SortDescTextSpec(r.value, Timestamp);
        r := Ok(SortDescText(r.value, Timestamp));
      }
    }

    method GetWashEventByID(id: string) returns (r: Result<WashEvent>)
      ensures r == FindById(washEvents, id, WashEventId)
    {
      r := LoadById(washEvents, id, WashEventId);
    }

    method SaveWashEvent(event: WashEvent) returns (r: Outcome)
      requires Valid()
      modifies this`washEvents
      ensures Valid()
      ensures var w := Write(old(washEvents), FileName(event.id), event);
        if w.Ok? then r == Success && washEvents == w.value
        else r == Failure(w.error) && washEvents == old(washEvents)
    {
      var w := Write(washEvents, FileName(event.id), event);
      WriteValid(washEvents, FileName(event.id), event);
      if w.Err? {
        return Failure(w.error);
      }
      washEvents := w.value;
      return Success;
    }

    method DeleteWashEvent(id: string) returns (r: Outcome)
      requires Valid()
      modifies this`washEvents
      ensures Valid()
      ensures var dl := DeleteById(old(washEvents), id, WashEventId);
        if dl.Ok? then r == Success && washEvents == dl.value
        else r == Failure(dl.error) && washEvents == old(washEvents)
    {
      var dl := RemoveById(washEvents, id, WashEventId);
      if dl.Err? {
        return Failure(dl.error);
      }
      DeleteValid(washEvents, id, WashEventId);
      washEvents := dl.value;
      return Success;
    }

    // ---- expenses

    /** All expenses, newest first; equal dates may come in any order. */
    method GetAllExpenses() returns (r: Result<seq<Expense>>)
      ensures r.Ok? <==> ListAll(expenses, "exp_").Ok?
      ensures r.Err? ==> r == ListAll(expenses, "exp_")
      ensures r.Ok? ==> multiset(r.value) == multiset(ListAll(expenses, "exp_").value)
                        && SortedDescByText(r.value, Date)
    {
      r := LoadAll(expenses, "exp_");
      if r.Ok? {
        SortDescTextSpec(r.value, Date);
        r := Ok(SortDescText(r.value, Date));
      }
    }

    method GetExpenseByID(id: string) returns (r: Result<Expense>)
      ensures r == FindById(expenses, id, ExpenseId)
    {
      r := LoadById(expenses, id, ExpenseId);
    }

    method SaveExpense(exp: Expense) returns (r: Outcome)
      requires Valid()
      modifies this`expenses
      ensures Valid()
      ensures var w := Write(old(expenses), FileName(exp.id), exp);
        if w.Ok? then r == Success && expenses == w.value
        else r == Failure(w.error) && expenses == old(expenses)
    {
      var w := Write(expenses, FileName(exp.id), exp);
      WriteValid(expenses, FileName(exp.id), exp);
      if w.Err? {
        return Failure(w.error);
      }
      expenses := w.value;
      return Success;
    }

    method DeleteExpense(id: string) returns (r: Outcome)
      requires Valid()
      modifies this`expenses
      ensures Valid()
      ensures var dl := DeleteById(old(expenses), id, ExpenseId);
        if dl.Ok? then r == Success && expenses == dl.value
        else r == Failure(dl.error) && expenses == old(expenses)
    {
      var dl := RemoveById(expenses, id, ExpenseId);
      if dl.Err? {
        return Failure(dl.error);
      }
      DeleteValid(expenses, id, ExpenseId);
      expenses := dl.value;
      return Success;
    }

    // ---- salary schemes

    method GetAllSalarySchemes() returns (r: Result<seq<SalaryScheme>>)
      ensures r == ListAll(salarySchemes, "scheme_")
    {
      r := LoadAll(salarySchemes, "scheme_");
    }

    method GetSalarySchemeByID(id: string) returns (r: Result<SalaryScheme>)
      ensures r == FindById(salarySchemes, id, SchemeId)
    {
      r := LoadById(salarySchemes, id, SchemeId);
    }

    method SaveSalaryScheme(scheme: SalaryScheme) returns (r: Outcome)
      requires Valid()
      modifies this`salarySchemes
      ensures Valid()
      ensures var w := Write(old(salarySchemes), FileName(scheme.id), scheme);
        if w.Ok? then r == Success && salarySchemes == w.value
        else r == Failure(w.error) && salarySchemes == old(salarySchemes)
    {
      var w := Write(salarySchemes, FileName(scheme.id), scheme);
      WriteValid(salarySchemes, FileName(scheme.id), scheme);
      if w.Err? {
        return Failure(w.error);
      }
      salarySchemes := w.value;
      return Success;
    }

    method DeleteSalaryScheme(id: string) returns (r: Outcome)
      requires Valid()
      modifies this`salarySchemes
      ensures Valid()
      ensures var dl := DeleteById(old(salarySchemes), id, SchemeId);
        if dl.Ok? then r == Success && salarySchemes == dl.value
        else r == Failure(dl.error) && salarySchemes == old(salarySchemes)
    {
      var dl := RemoveById(salarySchemes, id, SchemeId);
      if dl.Err? {
        return Failure(dl.error);
      }
      DeleteValid(salarySchemes, id, SchemeId);
      salarySchemes := dl.value;
      return Success;
    }

    // ---- ledgers and singletons

    method GetEmployeeTransactions(employeeId: string) returns (r: Result<seq<EmployeeTransaction>>)
      ensures r == ReadLedger(employeeLedgers, employeeId)
    {
      r := ReadLedger(employeeLedgers, employeeId);
    }

    /** Overwrites that owner's ledger file only. */
    method SaveEmployeeTransactions(employeeId: string, transactions: seq<EmployeeTransaction>)
      modifies this`employeeLedgers
      ensures employeeLedgers == old(employeeLedgers)[employeeId := Stored(transactions)]
    {
      employeeLedgers := employeeLedgers[employeeId := Stored(transactions)];
    }

    method GetClientTransactions(clientId: string) returns (r: Result<seq<ClientTransaction>>)
      ensures r == ReadLedger(clientLedgers, clientId)
    {
      r := ReadLedger(clientLedgers, clientId);
    }

    method SaveClientTransactions(clientId: string, transactions: seq<ClientTransaction>)
      modifies this`clientLedgers
      ensures clientLedgers == old(clientLedgers)[clientId := Stored(transactions)]
    {
      clientLedgers := clientLedgers[clientId := Stored(transactions)];
    }

    method GetRetailPriceConfig() returns (r: Result<RetailPriceConfig>)
      ensures r == ReadRetailConfig(retailConfig)
    {
      r := ReadRetailConfig(retailConfig);
    }

    method SaveRetailPriceConfig(config: RetailPriceConfig)
      modifies this`retailConfig
      ensures retailConfig == Stored(config)
    {
      retailConfig := Stored(config);
    }

    method GetInventory() returns (r: Result<Inventory>)
      ensures r == ReadInventory(inventory)
    {
      r := ReadInventory(inventory);
    }

    method SaveInventory(inv: Inventory)
      modifies this`inventory
      ensures inventory == Stored(inv)
    {
      inventory := Stored(inv);
    }
  }
}
