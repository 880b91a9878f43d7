/**
 * The local file table of the editor: a dictionary from file name to text,
 * the file being edited (its name, the editor text, the name field) and the
 * copy persisted in localStorage.
 *
 * `Table` and the functions over it are the specification; `LocalFiles` is
 * the object whose methods change its fields step by step as the composable
 * does, each method proved equal to its function.
 *
 * Every "does this file exist" test in the source is JavaScript truthiness of
 * the stored text, so a file whose text is the empty string counts as absent:
 * that is `Present`.
 */
module FileSystem {
  import opened Wrappers
  import opened Text

  /** The base of the names a new file gets: 新文件, 新文件1, 新文件2, ... */
  const NewFileBase: string := "新文件"

  /** What localStorage holds: the dictionary and its key order (JSON keeps insertion order). */
  datatype Snapshot = Snapshot(files: map<string, string>, order: seq<string>)

  /** The state of the composable. `current == None` is `currentFile === null`. */
  datatype Table = Table(
    files: map<string, string>,
    order: seq<string>,
    current: Option<string>,
    content: string,
    nameInput: string,
    stored: Option<Snapshot>)

  /** `files[name]` is truthy: the key is there and its text is not empty. */
  predicate Present(files: map<string, string>, name: string) {
    name in files && files[name] != ""
  }

  /** A string-or-null value is truthy. */
  predicate Truthy(o: Option<string>) {
    o.Some? && o.value != ""
  }

  // ---------------------------------------------------------------------------
  // Key order

  ghost predicate NoDup(s: seq<string>) {
    forall i, j :: 0 <= i < j < |s| ==> s[i] != s[j]
  }

  /** The key order after `delete files[k]`: `k` is dropped, the rest keep their order. */
  function Without(order: seq<string>, k: string): (r: seq<string>)
    ensures forall x :: x in r <==> x in order && x != k
    ensures NoDup(order) ==> NoDup(r)
    ensures |r| <= |order|
  {
    if order == [] then []
    else
      var rest := Without(order[1..], k);
      if order[0] == k then rest
      else
        assert NoDup(order) ==> order[0] !in order[1..];
        [order[0]] + rest
  }

  /** The key order lists exactly the keys of the dictionary, each once. */
  ghost predicate WellFormed(files: map<string, string>, order: seq<string>) {
    && NoDup(order)
    && (forall x :: x in order <==> x in files)
  }

  /** Both the live table and the persisted copy have a consistent key order. */
  ghost predicate TableWellFormed(t: Table) {
    && WellFormed(t.files, t.order)
    && (t.stored.Some? ==> WellFormed(t.stored.value.files, t.stored.value.order))
  }

  /** `files[k] = v`: a new key goes to the end of the order, an existing one keeps its place. */
  function Put(t: Table, k: string, v: string): Table {
    t.(files := t.files[k := v], order := if k in t.files then t.order else t.order + [k])
  }

  /** `delete files[k]`. */
  function Remove(t: Table, k: string): Table {
    t.(files := t.files - {k}, order := Without(t.order, k))
  }

  /** `saveFilesToStorage()`: the persisted copy becomes the live dictionary. */
  function Persist(t: Table): Table {
    t.(stored := Some(Snapshot(t.files, t.order)))
  }

  // ---------------------------------------------------------------------------
  // Unique names: base, base1, base2, ...

  /** The `k`-th name tried by the unique-name loops: `base` itself, then `${base}${k}`. */
  function Candidate(base: string, k: nat): string {
    if k == 0 then base else base + Decimal(k)
  }

  /** The candidates are pairwise distinct. */
  lemma CandidateInjective(base: string, j: nat, k: nat)
    ensures j != k ==> Candidate(base, j) != Candidate(base, k)
  {
    if j != 0 && k != 0 && Candidate(base, j) == Candidate(base, k) {
      assert Decimal(j) == Candidate(base, j)[|base|..];
      assert Decimal(k) == Candidate(base, k)[|base|..];
      DecimalInjective(j, k);
    }
  }

  /** The set of the first `n` candidates has `n` elements. */
  lemma {:induction false} CandidatesCount(base: string, n: nat)
    ensures |set j | 0 <= j < n :: Candidate(base, j)| == n
  {
    if n > 0 {
      var prev := set j | 0 <= j < n - 1 :: Candidate(base, j);
      var all := set j | 0 <= j < n :: Candidate(base, j);
      CandidatesCount(base, n - 1);
      assert all == prev + {Candidate(base, n - 1)};
      forall j | 0 <= j < n - 1 ensures Candidate(base, j) != Candidate(base, n - 1) {
        CandidateInjective(base, j, n - 1);
      }
    }
  }

  /**
   * A name the unique-name search must pass over: present in the table, or
   * one of the `reserved` names. The source's loops reserve nothing.
   */
  predicate Taken(files: map<string, string>, reserved: set<string>, name: string) {
    Present(files, name) || name in reserved
  }

  /**
   * The termination argument of the unique-name loops: the candidates are
   * distinct, so no more of them than there are files (and reserved names)
   * can be taken.
   */
  lemma PresentPrefixBound(files: map<string, string>, reserved: set<string>, base: string, n: nat)
    requires forall j :: 0 <= j < n ==> Taken(files, reserved, Candidate(base, j))
    ensures n <= |files| + |reserved|
  {
    var tried := set j | 0 <= j < n :: Candidate(base, j);
    var taken := files.Keys + reserved;
    CandidatesCount(base, n);
    forall x | x in tried ensures x in taken {
      var j :| 0 <= j < n && x == Candidate(base, j);
    }
    SubsetCardinality(tried, taken);
    UnionCardinality(files.Keys, reserved);
  }

  lemma SubsetCardinality<T>(a: set<T>, b: set<T>)
    requires a <= b
    ensures |a| <= |b|
  {
    assert b == a + (b - a);
  }

  lemma UnionCardinality<T>(a: set<T>, b: set<T>)
    ensures |a + b| <= |a| + |b|
  {
    assert a + b == a + (b - a);
    SubsetCardinality(b - a, b);
  }

  /** The index of the first candidate from `k` on that is not taken. */
  function FreeIndex(files: map<string, string>, reserved: set<string>, base: string, k: nat): (r: nat)
    requires forall j :: 0 <= j < k ==> Taken(files, reserved, Candidate(base, j))
    ensures k <= r <= |files| + |reserved|
    ensures !Taken(files, reserved, Candidate(base, r))
    ensures forall j :: 0 <= j < r ==> Taken(files, reserved, Candidate(base, j))
    decreases |files| + |reserved| - k
  {
    PresentPrefixBound(files, reserved, base, k);
    if !Taken(files, reserved, Candidate(base, k)) then k
    else
      PresentPrefixBound(files, reserved, base, k + 1);
      FreeIndex(files, reserved, base, k + 1)
  }

  /** The name the loops settle on: the first candidate that is not taken. */
  function FirstFreeName(files: map<string, string>, reserved: set<string>, base: string): string {
    Candidate(base, FreeIndex(files, reserved, base, 0))
  }

  /** The first free candidate is the only one with every earlier candidate taken. */
  lemma FirstFreeUnique(files: map<string, string>, reserved: set<string>, base: string, c: nat)
    requires !Taken(files, reserved, Candidate(base, c))
    requires forall j :: 0 <= j < c ==> Taken(files, reserved, Candidate(base, j))
    ensures FreeIndex(files, reserved, base, 0) == c
  {
  }

  /**
   * The `while (files[name]) { name = `${base}${count}`; count++ }` loop of
   * `newFile` and `importFile`. Returns the name and the final `count`.
   */
  method FindFreeName(files: map<string, string>, base: string) returns (name: string, count: nat)
    ensures name == FirstFreeName(files, {}, base)
    ensures 1 <= count <= |files| + 1 && name == Candidate(base, count - 1)
  {
    name := base;
    count := 1;
    while Present(files, name)
      invariant 1 <= count
      invariant name == Candidate(base, count - 1)
      invariant forall j :: 0 <= j < count - 1 ==> Taken(files, {}, Candidate(base, j))
      decreases |files| - count
    {
      PresentPrefixBound(files, {}, base, count);
      name := base + Decimal(count);
      count := count + 1;
    }
    PresentPrefixBound(files, {}, base, count - 1);
    FirstFreeUnique(files, {}, base, count - 1);
  }

  /** Changing only the text of `name` to the empty string keeps the first free name at `name`. */
  lemma FirstFreeAfterEmptyEntry(files: map<string, string>, base: string)
    ensures var name := FirstFreeName(files, {}, base);
      FirstFreeName(files[name := ""], {}, base) == name
  {
    var c := FreeIndex(files, {}, base, 0);
    var name := Candidate(base, c);
    var files' := files[name := ""];
    forall j | 0 <= j < c ensures Taken(files', {}, Candidate(base, j)) {
      CandidateInjective(base, j, c);
    }
    FirstFreeUnique(files', {}, base, c);
  }

  // ---------------------------------------------------------------------------
  // Import name

  /** The name ends in `.md`, the letters in either case (`/\.md$/i`). */
  predicate EndsWithMd(name: string) {
    && |name| >= 3
    && name[|name| - 3] == '.'
    && (name[|name| - 2] == 'm' || name[|name| - 2] == 'M')
    && (name[|name| - 1] == 'd' || name[|name| - 1] == 'D')
  }

  /** `name.replace(/\.md$/i, '')`. */
  function StripMd(name: string): string {
    if EndsWithMd(name) then name[..|name| - 3] else name
  }

  /**
   * Stripping removes one trailing `.md` in any case and nothing else: the
   * result and the removed part rebuild the name, and the removed part is
   * `.md` once lower-cased, or nothing when the name has no such ending.
   */
  lemma StripMdSplitsName(name: string)
    ensures var base := StripMd(name); var ext := name[|base|..];
      && |base| <= |name| && name == base + ext
      && (ext == "" || LowerAsciiString(ext) == ".md")
    ensures |name| >= 3 ==>
      (StripMd(name) == name <==> LowerAsciiString(name[|name| - 3..]) != ".md")
  {
    if |name| >= 3 {
      var tail := name[|name| - 3..];
      var low := LowerAsciiString(tail);
      assert low[0] == LowerAscii(tail[0]) && low[1] == LowerAscii(tail[1]) && low[2] == LowerAscii(tail[2]);
      assert (low == ".md") == (low[0] == '.' && low[1] == 'm' && low[2] == 'd');
      assert EndsWithMd(name) <==> low == ".md";
    }
  }

  // ---------------------------------------------------------------------------
  // The operations

  /** The refs before mount: nothing loaded, nothing open. */
  function Fresh(stored: Option<Snapshot>): Table {
    Table(map[], [], None, "", "", stored)
  }

  /** `openFile(name)`. */
  function Open(t: Table, name: string): Table {
    if !Present(t.files, name) then t
    else
      var saved := if Truthy(t.current) then Persist(Put(t, t.current.value, t.content)) else t;
      saved.(current := Some(name), content := saved.files[name], nameInput := name)
  }

  /** `initFileSystem()`: load the persisted copy, if any, and open its first key. */
  function Init(t: Table): Table {
    if t.stored.None? then t
    else
      var loaded := t.(files := t.stored.value.files, order := t.stored.value.order);
      if |loaded.order| > 0 then Open(loaded, loaded.order[0]) else loaded
  }

  /** The state after mount: the refs' initial values, then `initFileSystem()`. */
  function Mount(stored: Option<Snapshot>): Table {
    Init(Fresh(stored))
  }

  /** `newFile()`. */
  function NewEntry(t: Table): Table {
    var name := FirstFreeName(t.files, {}, NewFileBase);
    Open(Persist(Put(t, name, "")), name)
  }

  /** `saveFile()`, with the answer the user would give to the overwrite question. */
  function Save(t: Table, confirmOverwrite: bool): Table {
    var name := Trim(t.nameInput);
    if name == "" then t
    else if Some(name) != t.current && Present(t.files, name) && !confirmOverwrite then t
    else
      var kept := if Truthy(t.current) && Some(name) != t.current then Remove(t, t.current.value) else t;
      Open(Persist(Put(kept, name, kept.content)), name)
  }

  /** `deleteFile(arg)`, with the answer the user would give to the delete question. */
  function Delete(t: Table, arg: Option<string>, confirmDelete: bool): Table {
    var target := if Truthy(arg) then arg else t.current;
    if !Truthy(target) || !Present(t.files, target.value) || !confirmDelete then t
    else
      var removed := Persist(Remove(t, target.value));
      if t.current == target then removed.(current := None, content := "", nameInput := "") else removed
  }

  /** What `importFile` does once the file's name and text have been read. */
  function Import(t: Table, fileName: string, text: string): Table {
    var name := FirstFreeName(t.files, {}, StripMd(fileName));
    Open(Persist(Put(t, name, text)), name)
  }

  /** The user types in the editor. */
  function Edit(t: Table, text: string): Table {
    t.(content := text)
  }

  /** The user types in the file-name field. */
  function TypeName(t: Table, name: string): Table {
    t.(nameInput := name)
  }

  // ---------------------------------------------------------------------------
  // Properties

  /** Opening a name whose text is missing or empty changes nothing. */
  lemma OpenAbsentIsNoop(t: Table, name: string)
    requires !Present(t.files, name)
    ensures Open(t, name) == t
  {
  }

  /**
   * Opening a present file first writes the editor text back under the
   * current name (if there is one) and persists, then loads the file.
   */
  lemma OpenWritesBackThenLoads(t: Table, name: string)
    requires Present(t.files, name)
    ensures var r := Open(t, name);
      && r.current == Some(name) && r.nameInput == name
      && r.files == (if Truthy(t.current) then t.files[t.current.value := t.content] else t.files)
      && r.content == r.files[name]
      && r.stored == (if Truthy(t.current) then Some(Snapshot(r.files, r.order)) else t.stored)
  {
  }

  /**
   * `newFile` adds the first of 新文件, 新文件1, ... that is not present, with
   * empty text; since empty text is falsy, the `openFile` that follows does
   * nothing and the open file stays the same.
   */
  lemma NewFileAddsEmptyEntry(t: Table)
    ensures var name := FirstFreeName(t.files, {}, NewFileBase); var r := NewEntry(t);
      && !Present(t.files, name)
      && r.files == t.files[name := ""]
      && r.current == t.current && r.content == t.content && r.nameInput == t.nameInput
      && r.stored == Some(Snapshot(r.files, r.order))
  {
  }

  /** A second `newFile` picks the same name again and changes nothing. */
  lemma NewFileIdempotent(t: Table)
    ensures NewEntry(NewEntry(t)) == NewEntry(t)
  {
    var name := FirstFreeName(t.files, {}, NewFileBase);
    var t1 := Persist(Put(t, name, ""));
    assert NewEntry(t) == t1;
    FirstFreeAfterEmptyEntry(t.files, NewFileBase);
    assert FirstFreeName(t1.files, {}, NewFileBase) == name;
    assert Put(t1, name, "") == t1;
    assert NewEntry(t1) == t1;
  }

  /** `saveFile` with a blank name leaves everything as it was. */
  lemma SaveBlankNameIsNoop(t: Table, confirmOverwrite: bool)
    requires forall i :: 0 <= i < |t.nameInput| ==> IsSpace(t.nameInput[i])
    ensures Save(t, confirmOverwrite) == t
  {
    TrimEmptyIffBlank(t.nameInput);
  }

  /** Declining to overwrite another present file leaves everything as it was. */
  lemma SaveDeclinedIsNoop(t: Table)
    requires Trim(t.nameInput) != "" && Some(Trim(t.nameInput)) != t.current
    requires Present(t.files, Trim(t.nameInput))
    ensures Save(t, false) == t
  {
  }

  /**
   * Renaming the open file `a` to `b` with non-empty text ends with both
   * names holding the text and `b` open: the `delete` of `a` is undone by
   * `openFile`'s write-back, which puts `a` back at the end of the key order.
   */
  lemma RenameKeepsBothNames(t: Table, confirmOverwrite: bool)
    requires Truthy(t.current) && t.content != ""
    requires var b := Trim(t.nameInput); b != "" && b != t.current.value
    requires confirmOverwrite || !Present(t.files, Trim(t.nameInput))
    ensures var a := t.current.value; var b := Trim(t.nameInput); var r := Save(t, confirmOverwrite);
      && r.files == t.files[b := t.content][a := t.content]
      && r.files[a] == t.content && r.files[b] == t.content
      && r.current == Some(b) && r.content == t.content && r.nameInput == b
      && r.order == (var o := Without(t.order, a); if b in t.files then o + [a] else o + [b] + [a])
      && r.stored == Some(Snapshot(r.files, r.order))
  {
    var a := t.current.value;
    var b := Trim(t.nameInput);
    assert (t.files - {a})[b := t.content][a := t.content] == t.files[b := t.content][a := t.content];
  }

  /**
   * An accepted save of non-empty text under a non-blank name stores the text
   * under that name and opens it. With no file open (the first save of a new
   * document) nothing else changes.
   */
  lemma SaveStoresAndOpens(t: Table, confirmOverwrite: bool)
    requires Trim(t.nameInput) != "" && t.content != ""
    requires Some(Trim(t.nameInput)) == t.current || !Present(t.files, Trim(t.nameInput)) || confirmOverwrite
    ensures var b := Trim(t.nameInput); var r := Save(t, confirmOverwrite);
      && b in r.files && r.files[b] == t.content
      && r.current == Some(b) && r.content == t.content && r.nameInput == b
      && r.stored == Some(Snapshot(r.files, r.order))
      && (!Truthy(t.current) ==> r.files == t.files[b := t.content])
  {
  }

  /** Saving under the open file's own name writes the editor text to it. */
  lemma SaveSameNameWritesText(t: Table, confirmOverwrite: bool)
    requires Trim(t.nameInput) != "" && t.current == Some(Trim(t.nameInput))
    ensures var r := Save(t, confirmOverwrite);
      && r.files == t.files[t.current.value := t.content]
      && r.current == t.current && r.content == t.content
      && r.stored == Some(Snapshot(r.files, r.order))
  {
  }

  /**
   * Saving empty editor text never moves the open file, even when the name
   * changed: the stored text is empty, so the closing `openFile` does nothing.
   * After a rename the open name may then be a key that no longer exists.
   */
  lemma SaveEmptyTextKeepsOpenFile(t: Table, confirmOverwrite: bool)
    requires t.content == ""
    ensures Save(t, confirmOverwrite).current == t.current
  {
  }

  /** `deleteFile` changes nothing when its target is not present or the user declines. */
  lemma DeleteNoopCases(t: Table, arg: Option<string>, confirmDelete: bool)
    requires var target := if Truthy(arg) then arg else t.current;
      !Truthy(target) || !Present(t.files, target.value) || !confirmDelete
    ensures Delete(t, arg, confirmDelete) == t
  {
  }

  /** A confirmed delete of a present file removes exactly that key and persists. */
  lemma DeleteRemovesOnlyTarget(t: Table, arg: Option<string>)
    requires var target := if Truthy(arg) then arg else t.current;
      Truthy(target) && Present(t.files, target.value)
    ensures var target := (if Truthy(arg) then arg else t.current).value; var r := Delete(t, arg, true);
      && r.files.Keys == t.files.Keys - {target}
      && (forall k :: k in r.files ==> r.files[k] == t.files[k])
      && r.order == Without(t.order, target)
      && r.stored == Some(Snapshot(r.files, r.order))
      && (t.current == Some(target) ==> r.current == None && r.content == "" && r.nameInput == "")
      && (t.current != Some(target) ==> r.current == t.current && r.content == t.content && r.nameInput == t.nameInput)
  {
  }

  /**
   * Deleting with no argument targets the open file: it clears the open
   * name, the editor text and the name field, and removes only that key.
   */
  lemma DeleteCurrentClearsEditor(t: Table)
    requires Truthy(t.current) && Present(t.files, t.current.value)
    ensures var r := Delete(t, None, true);
      && r.current == None && r.content == "" && r.nameInput == ""
      && r.files == t.files - {t.current.value}
  {
  }

  /**
   * An import is stored under the first of `base`, `base1`, ... that is not
   * present, where `base` is the file name without one trailing `.md`. Unless
   * that name is the open file, it keeps the imported text, and non-empty text
   * is shown; opening it first writes the editor text back to the open file.
   */
  lemma ImportUsesFreeName(t: Table, fileName: string, text: string)
    ensures var name := FirstFreeName(t.files, {}, StripMd(fileName)); var r := Import(t, fileName, text);
      && !Present(t.files, name)
      && name in r.files
      && (t.current != Some(name) ==> r.files[name] == text)
      && (text != "" && t.current != Some(name) ==> r.content == text)
      && (text != "" && Truthy(t.current) ==> t.current.value in r.files && r.files[t.current.value] == t.content)
      && (forall k :: k in t.files && k != name && (t.current.Some? ==> k != t.current.value) ==> k in r.files && r.files[k] == t.files[k])
      && r.stored == Some(Snapshot(r.files, r.order))
      && (text != "" ==> r.current == Some(name) && r.nameInput == name)
      && (text == "" ==> r.current == t.current)
  {
  }

  // ---------------------------------------------------------------------------
  // Importing over the open file

  /**
   * As written, an import can lose its text. When the open file's stored text
   * is empty (the user saved it empty), that name is not "present", so the
   * unique-name loop may choose it; `openFile` then writes the editor text
   * back over the imported text under that very name.
   */
  lemma ImportOverEmptyOpenFileLosesText()
    ensures var t := Table(map["a" := ""], ["a"], Some("a"), "", "a", Some(Snapshot(map["a" := ""], ["a"])));
      var r := Import(t, "a.md", "hello");
      && r.current == Some("a") && r.files["a"] == "" && r.content == ""
  {
    var t := Table(map["a" := ""], ["a"], Some("a"), "", "a", Some(Snapshot(map["a" := ""], ["a"])));
    assert StripMd("a.md") == "a";
    assert !Taken(t.files, {}, Candidate("a", 0));
    FirstFreeUnique(t.files, {}, "a", 0);
  }

  /**
   * The import as evidently intended: the unique-name search also passes over
   * the name of the open file, so the write-back cannot land on the new entry.
   */
  function ImportIntended(t: Table, fileName: string, text: string): Table {
    var reserved := if t.current.Some? then {t.current.value} else {};
    var name := FirstFreeName(t.files, reserved, StripMd(fileName));
    Open(Persist(Put(t, name, text)), name)
  }

  /** With the open name reserved, non-empty imported text is stored, opened and shown. */
  lemma ImportIntendedKeepsText(t: Table, fileName: string, text: string)
    requires text != ""
    ensures var reserved := if t.current.Some? then {t.current.value} else {};
      var name := FirstFreeName(t.files, reserved, StripMd(fileName));
      var r := ImportIntended(t, fileName, text);
      && !Present(t.files, name) && t.current != Some(name)
      && r.files[name] == text && r.content == text
      && r.current == Some(name) && r.nameInput == name
  {
  }

  // ---------------------------------------------------------------------------
  // Invariants

  /** The persisted copy agrees with the live table (or nothing was ever persisted and the table is empty). */
  ghost predicate Synced(t: Table) {
    match t.stored
    case None => t.files == map[] && t.order == []
    case Some(s) => s.files == t.files && s.order == t.order
  }

  /** After mount the persisted copy and the table agree. */
  lemma MountIsSynced(stored: Option<Snapshot>)
    ensures Synced(Mount(stored))
  {
  }

  lemma OpenKeepsSynced(t: Table, name: string)
    requires Synced(t)
    ensures Synced(Open(t, name))
  {
  }

  lemma NewFileKeepsSynced(t: Table)
    requires Synced(t)
    ensures Synced(NewEntry(t))
  {
  }

  lemma SaveKeepsSynced(t: Table, confirmOverwrite: bool)
    requires Synced(t)
    ensures Synced(Save(t, confirmOverwrite))
  {
  }

  lemma DeleteKeepsSynced(t: Table, arg: Option<string>, confirmDelete: bool)
    requires Synced(t)
    ensures Synced(Delete(t, arg, confirmDelete))
  {
  }

  lemma ImportKeepsSynced(t: Table, fileName: string, text: string)
    requires Synced(t)
    ensures Synced(Import(t, fileName, text))
  {
  }

  lemma PutKeepsWellFormed(t: Table, k: string, v: string)
    requires TableWellFormed(t)
    ensures TableWellFormed(Put(t, k, v))
  {
    var o := Put(t, k, v).order;
    if k !in t.files {
      forall i, j | 0 <= i < j < |o| ensures o[i] != o[j] {
        if j == |o| - 1 {
          assert o[i] in t.order;
        }
      }
    }
  }

  lemma RemoveKeepsWellFormed(t: Table, k: string)
    requires TableWellFormed(t)
    ensures TableWellFormed(Remove(t, k))
  {
  }

  lemma PersistKeepsWellFormed(t: Table)
    requires TableWellFormed(t)
    ensures TableWellFormed(Persist(t))
  {
  }

  lemma OpenKeepsWellFormed(t: Table, name: string)
    requires TableWellFormed(t)
    ensures TableWellFormed(Open(t, name))
  {
    if Present(t.files, name) && Truthy(t.current) {
      PutKeepsWellFormed(t, t.current.value, t.content);
    }
  }

  lemma NewFileKeepsWellFormed(t: Table)
    requires TableWellFormed(t)
    ensures TableWellFormed(NewEntry(t))
  {
    var n := FirstFreeName(t.files, {}, NewFileBase);
    PutKeepsWellFormed(t, n, "");
    OpenKeepsWellFormed(Persist(Put(t, n, "")), n);
  }

  lemma SaveKeepsWellFormed(t: Table, confirmOverwrite: bool)
    requires TableWellFormed(t)
    ensures TableWellFormed(Save(t, confirmOverwrite))
  {
    var b := Trim(t.nameInput);
    var kept := if Truthy(t.current) && Some(b) != t.current then Remove(t, t.current.value) else t;
    assert TableWellFormed(kept);
    PutKeepsWellFormed(kept, b, kept.content);
    OpenKeepsWellFormed(Persist(Put(kept, b, kept.content)), b);
  }

  lemma DeleteKeepsWellFormed(t: Table, arg: Option<string>, confirmDelete: bool)
    requires TableWellFormed(t)
    ensures TableWellFormed(Delete(t, arg, confirmDelete))
  {
  }

  lemma ImportKeepsWellFormed(t: Table, fileName: string, text: string)
    requires TableWellFormed(t)
    ensures TableWellFormed(Import(t, fileName, text))
  {
    var m := FirstFreeName(t.files, {}, StripMd(fileName));
    PutKeepsWellFormed(t, m, text);
    OpenKeepsWellFormed(Persist(Put(t, m, text)), m);
  }

  /** Every operation keeps the key order in step with the keys, live and persisted. */
  lemma OperationsKeepWellFormed(t: Table, name: string, text: string, arg: Option<string>, answer: bool)
    requires TableWellFormed(t)
    ensures TableWellFormed(Open(t, name)) && TableWellFormed(NewEntry(t)) && TableWellFormed(Save(t, answer))
    ensures TableWellFormed(Delete(t, arg, answer)) && TableWellFormed(Import(t, name, text))
  {
    OpenKeepsWellFormed(t, name);
    NewFileKeepsWellFormed(t);
    SaveKeepsWellFormed(t, answer);
    DeleteKeepsWellFormed(t, arg, answer);
    ImportKeepsWellFormed(t, name, text);
  }

  /** A well-formed persisted copy gives a well-formed table at mount. */
  lemma MountKeepsWellFormed(stored: Option<Snapshot>)
    requires stored.Some? ==> WellFormed(stored.value.files, stored.value.order)
    ensures TableWellFormed(Mount(stored))
  {
    var t := Fresh(stored);
    if stored.Some? {
      var loaded := t.(files := stored.value.files, order := stored.value.order);
      if |loaded.order| > 0 {
        OpenKeepsWellFormed(loaded, loaded.order[0]);
      }
    }
  }

  // ---------------------------------------------------------------------------
  // The composable

  /** The refs of `useFileSystem` and its localStorage entry. */
  class LocalFiles {
    var files: map<string, string>
    var order: seq<string>
    var currentFile: Option<string>
    var currentContent: string
    var fileNameInput: string
    var stored: Option<Snapshot>

    function Model(): Table
      reads this
    {
      Table(files, order, currentFile, currentContent, fileNameInput, stored)
    }

    /** The refs' initial values, then the mount hook `initFileSystem()`, with `saved` in localStorage. */
    constructor (saved: Option<Snapshot>)
      ensures Model() == Mount(saved)
    {
      files := map[];
      order := [];
      currentFile := None;
      currentContent := "";
      fileNameInput := "";
      stored := saved;
      new;
      InitFileSystem();
    }

    method InitFileSystem()
      modifies this
      ensures Model() == Init(old(Model()))
    {
      if stored.Some? {
        files := stored.value.files;
        order := stored.value.order;
        if |order| > 0 {
          OpenFile(order[0]);
        }
      }
    }

    /** `files.value[k] = v`: a new key is appended to the key order. */
    method SetEntry(k: string, v: string)
      modifies this
      ensures Model() == Put(old(Model()), k, v)
    {
      if k !in files {
        order := order + [k];
      }
      files := files[k := v];
    }

    /** `delete files.value[k]`. */
    method DeleteEntry(k: string)
      modifies this
      ensures Model() == Remove(old(Model()), k)
    {
      files := files - {k};
      order := Without(order, k);
    }

    method SaveFilesToStorage()
      modifies this
      ensures Model() == Persist(old(Model()))
    {
      stored := Some(Snapshot(files, order));
    }

    method OpenFile(filename: string)
      modifies this
      ensures Model() == Open(old(Model()), filename)
    {
      if !Present(files, filename) {
        return;
      }
      if Truthy(currentFile) {
        SetEntry(currentFile.value, currentContent);
        SaveFilesToStorage();
      }
      currentFile := Some(filename);
      currentContent := files[filename];
      fileNameInput := filename;
    }

    method NewFile()
      modifies this
      ensures Model() == NewEntry(old(Model()))
    {
      var defaultName, _ := FindFreeName(files, NewFileBase);
      SetEntry(defaultName, "");
      SaveFilesToStorage();
      OpenFile(defaultName);
    }

    /** `saveFile()`; `confirmOverwrite` is what `confirm` would return if asked. */
    method SaveFile(confirmOverwrite: bool)
      modifies this
      ensures Model() == Save(old(Model()), confirmOverwrite)
    {
      var newFilename := Trim(fileNameInput);
      if newFilename == "" {
        return;
      }
      if Some(newFilename) != currentFile && Present(files, newFilename) {
        if !confirmOverwrite {
          return;
        }
      }
      if Truthy(currentFile) && Some(newFilename) != currentFile {
        DeleteEntry(currentFile.value);
      }
      SetEntry(newFilename, currentContent);
      SaveFilesToStorage();
      OpenFile(newFilename);
    }

    /** `deleteFile(arg)`; `confirmDelete` is what `confirm` would return if asked. */
    method DeleteFile(arg: Option<string>, confirmDelete: bool)
      modifies this
      ensures Model() == Delete(old(Model()), arg, confirmDelete)
    {
      var filename := arg;
      if !Truthy(filename) {
        filename := currentFile;
      }
      if !Truthy(filename) || !Present(files, filename.value) {
        return;
      }
      if !confirmDelete {
        return;
      }
      var isDeleteCurrentFile := currentFile == filename;
      DeleteEntry(filename.value);
      SaveFilesToStorage();
      if isDeleteCurrentFile {
        currentFile := None;
        currentContent := "";
        fileNameInput := "";
      }
    }

    /** The `reader.onload` step of `importFile`, given the picked file's name and text. */
    method ImportFile(fileName: string, text: string)
      modifies this
      ensures Model() == Import(old(Model()), fileName, text)
    {
      var filename := StripMd(fileName);
      var finalName, _ := FindFreeName(files, filename);
      SetEntry(finalName, text);
      SaveFilesToStorage();
      OpenFile(finalName);
    }

    /** The editor's two-way binding to `currentContent`. */
    method SetContent(text: string)
      modifies this
      ensures Model() == Edit(old(Model()), text)
    {
      currentContent := text;
    }

    /** The name field's two-way binding to `fileNameInput`. */
    method SetFileNameInput(name: string)
      modifies this
      ensures Model() == TypeName(old(Model()), name)
    {
      fileNameInput := name;
    }
  }
}
