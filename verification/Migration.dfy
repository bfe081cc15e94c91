/** Migrating stored session identities: databases, JSON files and workspaces are changed
    one by one with an undo journal, and a rollback takes the whole run back. */
module Migration {
  import opened Text

  type Path = string
  type Content = int

  /** What a workspace path holds: a directory tree or something else. */
  datatype Node = Directory(tree: int) | Other

  /** What is to be done with a JSON file, given its path and content. */
  datatype Plan = Skip | Refuse | Change(content: Content, destination: Path)

  /** The parts of the migration that depend on what files contain. */
  datatype Tools = Tools(
    database: (Path, Content) -> Content, plan: (Path, Content) -> Plan,
    registry: Option<Content> -> Content, hash: Content -> int)

  // ---- The journal ----

  datatype Backup = Backup(source: Path, destination: Path, existed: bool, renamed: bool)

  datatype FileChange = FileChange(source: Path, destination: Path, hash: int)

  datatype Rename = Rename(source: Path, destination: Path, tree: int)

  /** `copies` are the files in the backup directory, one for each backed-up source. */
  datatype Journal = Journal(
    backups: seq<Backup>, copies: map<Path, Content>, changes: seq<FileChange>, renames: seq<Rename>)

  datatype Store = Store(files: map<Path, Content>, workspaces: map<Path, Node>, journal: Journal)

  datatype Result = Done(store: Store) | Failed

  // ---- Applying ----

  function WithBackup(j: Journal, b: Backup, copy: Content): Journal {
    j.(backups := j.backups + [b], copies := j.copies[b.source := copy])
  }

  function RewriteDatabase(tools: Tools, s: Store, path: Path): Store
    requires path in s.files
  {
    var was := s.files[path];
    s.(files := s.files[path := tools.database(path, was)],
       journal := WithBackup(s.journal, Backup(path, path, true, false), was))
  }

  function MigrateFile(tools: Tools, s: Store, path: Path): Result
    requires path in s.files
  {
    var was := s.files[path];
    match tools.plan(path, was)
    case Skip => Done(s)
    case Refuse => Failed
    case Change(content, destination) =>
      if destination != path && destination in s.files then Failed
      else
        var j := WithBackup(s.journal, Backup(path, destination, true, destination != path), was);
        Done(s.(files := (s.files - {path})[destination := content],
                journal := j.(changes := j.changes + [FileChange(path, destination, tools.hash(content))])))
  }

  function RegisterIdentities(tools: Tools, s: Store, path: Path): Store {
    if path in s.files then
      s.(files := s.files[path := tools.registry(Some(s.files[path]))],
         journal := WithBackup(s.journal, Backup(path, path, true, false), s.files[path]))
    else
      s.(files := s.files[path := tools.registry(None)],
         journal := s.journal.(backups := s.journal.backups + [Backup(path, path, false, false)]))
  }

  /** One workspace, from `move.0` to `move.1`. */
  function RenameWorkspace(s: Store, move: (Path, Path)): Result {
    var (source, destination) := move;
    if source !in s.workspaces then Done(s)
    else if s.workspaces[source].Other? || destination in s.workspaces then Failed
    else
      var node := s.workspaces[source];
      Done(s.(workspaces := (s.workspaces - {source})[destination := node],
              journal := s.journal.(renames := s.journal.renames + [Rename(source, destination, node.tree)])))
  }

  /** Every path is listed once, and listed files exist. */
  predicate Listed(files: map<Path, Content>, databases: seq<Path>, jsons: seq<Path>, registry: Path) {
    && (forall p :: p in databases ==> p in files && p != registry)
    && (forall p :: p in jsons ==> p in files && p != registry)
    && (forall i, j :: 0 <= i < j < |databases| ==> databases[i] != databases[j])
    && (forall i, j :: 0 <= i < j < |jsons| ==> jsons[i] != jsons[j])
    && (forall p :: p in databases ==> p !in jsons)
  }

  // ---- Rolling back ----

  function FirstHash(changes: seq<FileChange>, destination: Path): Option<int> {
    if changes == [] then None
    else if changes[0].destination == destination then Some(changes[0].hash)
    else FirstHash(changes[1..], destination)
  }

  /** Takes back one backup; None if the file is not as the migration left it. */
  function Restored(tools: Tools, files: map<Path, Content>, j: Journal, b: Backup): Option<map<Path, Content>> {
    var moved := b.renamed && b.destination in files && b.destination != b.source;
    var expected := FirstHash(j.changes, b.destination);
    if moved && expected.Some? && tools.hash(files[b.destination]) != expected.value then None
    else
      var left := if moved then files - {b.destination} else files;
      if !b.existed then Some(left - {b.source})
      else if b.source in j.copies then Some(left[b.source := j.copies[b.source]])
      else None
  }

  /** Takes back the first `n` backups, last one first. */
  function AllRestored(tools: Tools, files: map<Path, Content>, j: Journal, n: nat): Option<map<Path, Content>>
    requires n <= |j.backups|
    decreases n
  {
    if n == 0 then Some(files)
    else
      match Restored(tools, files, j, j.backups[n - 1])
      case None => None
      case Some(restored) => AllRestored(tools, restored, j, n - 1)
  }

  function RenamedBack(workspaces: map<Path, Node>, r: Rename): Option<map<Path, Node>> {
    if r.destination in workspaces && r.source !in workspaces then
      if workspaces[r.destination] != Directory(r.tree) then None
      else Some((workspaces - {r.destination})[r.source := Directory(r.tree)])
    else Some(workspaces)
  }

  function AllRenamedBack(workspaces: map<Path, Node>, renames: seq<Rename>, n: nat): Option<map<Path, Node>>
    requires n <= |renames|
    decreases n
  {
    if n == 0 then Some(workspaces)
    else
      match RenamedBack(workspaces, renames[n - 1])
      case None => None
      case Some(back) => AllRenamedBack(back, renames, n - 1)
  }

  // ---- The journal as an undo stack ----

  /** What the journal undoes is the step back to `files` and `workspaces`. */
  predicate Undoes(tools: Tools, s: Store, files: map<Path, Content>, workspaces: map<Path, Node>) {
    && AllRestored(tools, s.files, s.journal, |s.journal.backups|) == Some(files)
    && AllRenamedBack(s.workspaces, s.journal.renames, |s.journal.renames|) == Some(workspaces)
  }

  /** Every change still has its file, and no path in `todo` has been dealt with. */
  predicate Orderly(s: Store, todo: set<Path>) {
    && (forall i :: 0 <= i < |s.journal.changes| ==> s.journal.changes[i].destination in s.files)
    && (forall i :: 0 <= i < |s.journal.changes| ==> s.journal.changes[i].destination !in todo)
    && (forall p :: p in todo ==> p !in s.journal.copies)
    && (forall b :: b in s.journal.backups ==> (b.existed ==> b.source in s.journal.copies))
    && (forall b :: b in s.journal.backups ==>
          (b.renamed ==> FirstHash(s.journal.changes, b.destination).Some?))
  }

  /** A longer journal with the same beginning. */
  predicate Extends(j: Journal, k: Journal) {
    && j.backups <= k.backups && j.changes <= k.changes
    && (forall p :: p in j.copies ==> p in k.copies && k.copies[p] == j.copies[p])
  }

  lemma {:induction false} FirstHashStays(a: seq<FileChange>, b: seq<FileChange>, destination: Path)
    requires FirstHash(a, destination).Some?
    ensures FirstHash(a + b, destination) == FirstHash(a, destination)
  {
    assert (a + b)[0] == a[0] && (a + b)[1..] == a[1..] + b;
    if a[0].destination != destination { FirstHashStays(a[1..], b, destination); }
  }

  lemma {:induction false} FirstHashNew(a: seq<FileChange>, c: FileChange)
    requires forall i :: 0 <= i < |a| ==> a[i].destination != c.destination
    ensures FirstHash(a + [c], c.destination) == Some(c.hash)
  {
    assert (a + [c])[1..] == if a == [] then [] else a[1..] + [c];
    if a != [] { FirstHashNew(a[1..], c); }
  }

  lemma {:induction false} RestoredStays(tools: Tools, files: map<Path, Content>, j: Journal, k: Journal, b: Backup)
    requires Extends(j, k)
    requires b.existed ==> b.source in j.copies
    requires b.renamed ==> FirstHash(j.changes, b.destination).Some?
    ensures Restored(tools, files, k, b) == Restored(tools, files, j, b)
  {
    if b.renamed {
      assert k.changes == j.changes + k.changes[|j.changes|..];
      FirstHashStays(j.changes, k.changes[|j.changes|..], b.destination);
    }
  }

  lemma {:induction false} LongerJournal(tools: Tools, files: map<Path, Content>, j: Journal, k: Journal, n: nat)
    requires Extends(j, k) && n <= |j.backups|
    requires forall b :: b in j.backups ==> (b.existed ==> b.source in j.copies)
    requires forall b :: b in j.backups ==> (b.renamed ==> FirstHash(j.changes, b.destination).Some?)
    ensures AllRestored(tools, files, k, n) == AllRestored(tools, files, j, n)
    decreases n
  {
    if n > 0 {
      var b := j.backups[n - 1];
      assert b in j.backups && k.backups[n - 1] == b;
      RestoredStays(tools, files, j, k, b);
      var restored := Restored(tools, files, j, b);
      if restored.Some? { LongerJournal(tools, restored.value, j, k, n - 1); }
    }
  }

  /** One more entry: if taking it back leads to where the journal already leads back from,
      the longer journal leads back just as far. */
  lemma {:induction false} OneMore(tools: Tools, s: Store, t: Store, todo: set<Path>, b: Backup,
                files: map<Path, Content>, workspaces: map<Path, Node>)
    requires Undoes(tools, s, files, workspaces) && Orderly(s, todo) && Extends(s.journal, t.journal)
    requires t.journal.backups == s.journal.backups + [b]
    requires t.workspaces == s.workspaces && t.journal.renames == s.journal.renames
    requires Restored(tools, t.files, t.journal, b) == Some(s.files)
    ensures Undoes(tools, t, files, workspaces)
  {
    LongerJournal(tools, s.files, s.journal, t.journal, |s.journal.backups|);
  }

  lemma {:induction false} DatabaseStep(tools: Tools, s: Store, path: Path, todo: set<Path>,
                     files: map<Path, Content>, workspaces: map<Path, Node>)
    requires path in s.files && path in todo && Undoes(tools, s, files, workspaces) && Orderly(s, todo)
    ensures var t := RewriteDatabase(tools, s, path);
            Undoes(tools, t, files, workspaces) && Orderly(t, todo - {path}) && t.files.Keys == s.files.Keys
  {
    var t := RewriteDatabase(tools, s, path);
    var b := Backup(path, path, true, false);
    assert t.files[path := s.files[path]] == s.files;
    OneMore(tools, s, t, todo, b, files, workspaces);
  }

  lemma {:induction false} RegistryStep(
      tools: Tools, s: Store, path: Path, files: map<Path, Content>, workspaces: map<Path, Node>)
    requires Undoes(tools, s, files, workspaces) && Orderly(s, {}) && path !in s.journal.copies
    ensures var t := RegisterIdentities(tools, s, path);
            Undoes(tools, t, files, workspaces) && Orderly(t, {})
  {
    var t := RegisterIdentities(tools, s, path);
    if path in s.files {
      assert t.files[path := s.files[path]] == s.files;
      OneMore(tools, s, t, {}, Backup(path, path, true, false), files, workspaces);
    } else {
      assert t.files - {path} == s.files;
      OneMore(tools, s, t, {}, Backup(path, path, false, false), files, workspaces);
    }
  }

  /** A file that moved goes back: its new place is cleared, unless it never left. */
  lemma {:induction false} MovedFileReturns(tools: Tools, s: Store, path: Path, todo: set<Path>)
    requires path in s.files && path in todo && Orderly(s, todo)
    requires MigrateFile(tools, s, path).Done? && tools.plan(path, s.files[path]).Change?
    ensures var t, b := MigrateFile(tools, s, path).store, MigratedAs(tools, s, path);
            Restored(tools, t.files, t.journal, b) == Some(s.files)
  {
    var t := MigrateFile(tools, s, path).store;
    var plan := tools.plan(path, s.files[path]);
    var c := FileChange(path, plan.destination, tools.hash(plan.content));
    if plan.destination == path {
      assert t.files[path := s.files[path]] == s.files;
    } else {
      FirstHashNew(s.journal.changes, c);
      assert (t.files - {plan.destination})[path := s.files[path]] == s.files;
    }
  }

  function MigratedAs(tools: Tools, s: Store, path: Path): Backup
    requires path in s.files && tools.plan(path, s.files[path]).Change?
  {
    var destination := tools.plan(path, s.files[path]).destination;
    Backup(path, destination, true, destination != path)
  }

  lemma {:induction false} ChangeIsOrderly(tools: Tools, s: Store, path: Path, todo: set<Path>)
    requires path in s.files && path in todo && todo <= s.files.Keys && Orderly(s, todo)
    requires MigrateFile(tools, s, path).Done? && tools.plan(path, s.files[path]).Change?
    ensures var t := MigrateFile(tools, s, path).store;
            Orderly(t, todo - {path}) && todo - {path} <= t.files.Keys && Extends(s.journal, t.journal)
  {
    var t := MigrateFile(tools, s, path).store;
    var c := t.journal.changes[|s.journal.changes|];
    assert t.journal.changes == s.journal.changes + [c];
    FirstHashNew(s.journal.changes, c);
    forall b | b in s.journal.backups && b.renamed ensures FirstHash(t.journal.changes, b.destination).Some? {
      FirstHashStays(s.journal.changes, [c], b.destination);
    }
  }

  lemma {:induction false} FileStep(tools: Tools, s: Store, path: Path, todo: set<Path>,
                 files: map<Path, Content>, workspaces: map<Path, Node>)
    requires path in todo && todo <= s.files.Keys && Undoes(tools, s, files, workspaces) && Orderly(s, todo)
    requires MigrateFile(tools, s, path).Done?
    ensures var t := MigrateFile(tools, s, path).store;
            Undoes(tools, t, files, workspaces) && Orderly(t, todo - {path}) && todo - {path} <= t.files.Keys
  {
    if tools.plan(path, s.files[path]).Change? {
      ChangeIsOrderly(tools, s, path, todo);
      MovedFileReturns(tools, s, path, todo);
      OneMore(tools, s, MigrateFile(tools, s, path).store, todo, MigratedAs(tools, s, path), files, workspaces);
    }
  }

  lemma {:induction false} EarlierRenames(workspaces: map<Path, Node>, a: seq<Rename>, b: seq<Rename>, n: nat)
    requires n <= |a| && a <= b
    ensures AllRenamedBack(workspaces, b, n) == AllRenamedBack(workspaces, a, n)
    decreases n
  {
    if n > 0 {
      var back := RenamedBack(workspaces, a[n - 1]);
      if back.Some? { EarlierRenames(back.value, a, b, n - 1); }
    }
  }

  lemma {:induction false} WorkspaceStep(
      tools: Tools, s: Store, move: (Path, Path), files: map<Path, Content>, workspaces: map<Path, Node>)
    requires Undoes(tools, s, files, workspaces) && RenameWorkspace(s, move).Done?
    ensures Undoes(tools, RenameWorkspace(s, move).store, files, workspaces)
  {
    var (source, destination) := move;
    if source in s.workspaces {
      var t := RenameWorkspace(s, move).store;
      var n := |s.journal.renames|;
      var r := t.journal.renames[n];
      assert t.journal.renames == s.journal.renames + [r];
      assert (t.workspaces - {destination})[source := Directory(r.tree)] == s.workspaces;
      EarlierRenames(s.workspaces, s.journal.renames, t.journal.renames, n);
      SameBackups(tools, s, t);
    }
  }

  lemma {:induction false} SameBackups(tools: Tools, s: Store, t: Store)
    requires s.files == t.files && s.journal.backups == t.journal.backups
    requires s.journal.changes == t.journal.changes && s.journal.copies == t.journal.copies
    ensures AllRestored(tools, t.files, t.journal, |t.journal.backups|) ==
            AllRestored(tools, s.files, s.journal, |s.journal.backups|)
  {
    SameUndo(tools, s.files, s.journal, t.journal, |s.journal.backups|);
  }

  lemma {:induction false} SameUndo(tools: Tools, files: map<Path, Content>, j: Journal, k: Journal, n: nat)
    requires j.backups == k.backups && j.changes == k.changes && j.copies == k.copies && n <= |j.backups|
    ensures AllRestored(tools, files, j, n) == AllRestored(tools, files, k, n)
    decreases n
  {
    if n > 0 {
      var restored := Restored(tools, files, j, j.backups[n - 1]);
      if restored.Some? { SameUndo(tools, restored.value, j, k, n - 1); }
    }
  }

  // ---- A whole run ----

  /** The databases and JSON files of a run, the identity registry, and the workspaces to move. */
  datatype Run = Run(databases: seq<Path>, jsons: seq<Path>, registry: Path, moves: seq<(Path, Path)>)

  const EMPTY_JOURNAL := Journal([], map[], [], [])

  function AllDatabases(tools: Tools, s: Store, paths: seq<Path>): (t: Store)
    requires forall p :: p in paths ==> p in s.files
    ensures t.files.Keys == s.files.Keys
    decreases |paths|
  {
    if paths == [] then s
    else
      var t := RewriteDatabase(tools, s, paths[0]);
      assert t.files.Keys == s.files.Keys;
      AllDatabases(tools, t, paths[1..])
  }

  predicate Distinct(paths: seq<Path>) {
    forall i, j :: 0 <= i < j < |paths| ==> paths[i] != paths[j]
  }

  function SetOf(paths: seq<Path>): set<Path> {
    set p | p in paths
  }

  /** A listed file that has not had its turn is where it was. */
  lemma {:induction false} TurnLeavesRest(tools: Tools, s: Store, paths: seq<Path>)
    requires paths != [] && Distinct(paths) && SetOf(paths) <= s.files.Keys
    requires MigrateFile(tools, s, paths[0]).Done?
    ensures SetOf(paths[1..]) <= MigrateFile(tools, s, paths[0]).store.files.Keys && Distinct(paths[1..])
    ensures SetOf(paths) - {paths[0]} == SetOf(paths[1..])
  {
    assert paths == [paths[0]] + paths[1..];
    assert paths[0] !in paths[1..];
  }

  function AllFiles(tools: Tools, s: Store, paths: seq<Path>): Result
    requires Distinct(paths) && SetOf(paths) <= s.files.Keys
    decreases |paths|
  {
    if paths == [] then Done(s)
    else
      assert paths[0] in SetOf(paths);
      match MigrateFile(tools, s, paths[0])
      case Failed => Failed
      case Done(t) =>
        TurnLeavesRest(tools, s, paths);
        AllFiles(tools, t, paths[1..])
  }

  function AllWorkspaces(s: Store, moves: seq<(Path, Path)>): Result
    decreases |moves|
  {
    if moves == [] then Done(s)
    else
      match RenameWorkspace(s, moves[0])
      case Failed => Failed
      case Done(t) => AllWorkspaces(t, moves[1..])
  }

  function Applied(tools: Tools, files: map<Path, Content>, workspaces: map<Path, Node>, run: Run): Result
    requires Listed(files, run.databases, run.jsons, run.registry)
  {
    var s := AllDatabases(tools, Store(files, workspaces, EMPTY_JOURNAL), run.databases);
    match AllFiles(tools, s, run.jsons)
    case Failed => Failed
    case Done(t) => AllWorkspaces(RegisterIdentities(tools, t, run.registry), run.moves)
  }

  lemma {:induction false} DatabasesUndone(tools: Tools, s: Store, paths: seq<Path>, todo: set<Path>,
                                           files: map<Path, Content>, workspaces: map<Path, Node>)
    requires Distinct(paths) && SetOf(paths) <= todo && SetOf(paths) <= s.files.Keys
    requires Undoes(tools, s, files, workspaces) && Orderly(s, todo)
    ensures var t := AllDatabases(tools, s, paths);
            Undoes(tools, t, files, workspaces) && Orderly(t, todo - SetOf(paths))
    decreases |paths|
  {
    if paths == [] {
      assert todo - SetOf(paths) == todo;
    } else {
      assert paths == [paths[0]] + paths[1..] && paths[0] in SetOf(paths);
      assert SetOf(paths) == {paths[0]} + SetOf(paths[1..]);
      DatabaseStep(tools, s, paths[0], todo, files, workspaces);
      DatabasesUndone(tools, RewriteDatabase(tools, s, paths[0]), paths[1..], todo - {paths[0]}, files, workspaces);
      assert todo - SetOf(paths) == todo - {paths[0]} - SetOf(paths[1..]);
    }
  }

  lemma {:induction false} FilesUndone(tools: Tools, s: Store, paths: seq<Path>, more: set<Path>,
                                       files: map<Path, Content>, workspaces: map<Path, Node>)
    requires Distinct(paths) && SetOf(paths) <= s.files.Keys && more !! SetOf(paths)
    requires Undoes(tools, s, files, workspaces) && Orderly(s, SetOf(paths)) && more !! s.journal.copies.Keys
    requires AllFiles(tools, s, paths).Done?
    ensures var t := AllFiles(tools, s, paths).store;
            Undoes(tools, t, files, workspaces) && Orderly(t, {}) && more !! t.journal.copies.Keys
    decreases |paths|
  {
    if paths != [] {
      var path := paths[0];
      assert path in SetOf(paths);
      FileStep(tools, s, path, SetOf(paths), files, workspaces);
      TurnLeavesRest(tools, s, paths);
      FilesUndone(tools, MigrateFile(tools, s, path).store, paths[1..], more, files, workspaces);
    }
  }

  lemma {:induction false} WorkspacesUndone(tools: Tools, s: Store, moves: seq<(Path, Path)>,
                                            files: map<Path, Content>, workspaces: map<Path, Node>)
    requires Undoes(tools, s, files, workspaces) && AllWorkspaces(s, moves).Done?
    ensures Undoes(tools, AllWorkspaces(s, moves).store, files, workspaces)
    decreases |moves|
  {
    if moves != [] {
      WorkspaceStep(tools, s, moves[0], files, workspaces);
      WorkspacesUndone(tools, RenameWorkspace(s, moves[0]).store, moves[1..], files, workspaces);
    }
  }

  lemma {:induction false} OrderlyLess(s: Store, todo: set<Path>, less: set<Path>)
    requires Orderly(s, todo) && less <= todo
    ensures Orderly(s, less) && less !! s.journal.copies.Keys
  {
  }

  lemma {:induction false} StartUndone(tools: Tools, files: map<Path, Content>, workspaces: map<Path, Node>, run: Run)
    requires Listed(files, run.databases, run.jsons, run.registry)
    ensures var s := AllDatabases(tools, Store(files, workspaces, EMPTY_JOURNAL), run.databases);
            && Undoes(tools, s, files, workspaces) && Orderly(s, SetOf(run.jsons))
            && {run.registry} !! s.journal.copies.Keys && {run.registry} !! SetOf(run.jsons)
  {
    var s0 := Store(files, workspaces, EMPTY_JOURNAL);
    var todo := SetOf(run.databases) + SetOf(run.jsons) + {run.registry};
    DatabasesUndone(tools, s0, run.databases, todo, files, workspaces);
    var s := AllDatabases(tools, s0, run.databases);
    assert SetOf(run.jsons) + {run.registry} <= todo - SetOf(run.databases);
    OrderlyLess(s, todo - SetOf(run.databases), SetOf(run.jsons) + {run.registry});
    OrderlyLess(s, SetOf(run.jsons) + {run.registry}, SetOf(run.jsons));
  }

  lemma {:induction false} EndUndone(
      tools: Tools, s: Store, run: Run, files: map<Path, Content>, workspaces: map<Path, Node>)
    requires Undoes(tools, s, files, workspaces) && Orderly(s, {}) && {run.registry} !! s.journal.copies.Keys
    requires AllWorkspaces(RegisterIdentities(tools, s, run.registry), run.moves).Done?
    ensures Undoes(tools, AllWorkspaces(RegisterIdentities(tools, s, run.registry), run.moves).store, files, workspaces)
  {
    RegistryStep(tools, s, run.registry, files, workspaces);
    WorkspacesUndone(tools, RegisterIdentities(tools, s, run.registry), run.moves, files, workspaces);
  }

  /** After a completed run, taking back the journal in reverse restores every file and every
      workspace to its path and content from before, and leaves nothing else. */
  lemma {:induction false} RollbackUndoesApply(
      tools: Tools, files: map<Path, Content>, workspaces: map<Path, Node>, run: Run)
    requires Listed(files, run.databases, run.jsons, run.registry)
    requires Applied(tools, files, workspaces, run).Done?
    ensures Undoes(tools, Applied(tools, files, workspaces, run).store, files, workspaces)
  {
    StartUndone(tools, files, workspaces, run);
    var s := AllDatabases(tools, Store(files, workspaces, EMPTY_JOURNAL), run.databases);
    FilesUndone(tools, s, run.jsons, {run.registry}, files, workspaces);
    EndUndone(tools, AllFiles(tools, s, run.jsons).store, run, files, workspaces);
  }

  // ---- What verification finds ----

  /** The hashes the journal names are those of the files in their new places. */
  predicate HashesMatch(tools: Tools, s: Store) {
    forall i :: 0 <= i < |s.journal.changes| ==>
      var c := s.journal.changes[i];
      c.destination in s.files && tools.hash(s.files[c.destination]) == c.hash
  }

  lemma {:induction false} FileStepMatches(tools: Tools, s: Store, path: Path, todo: set<Path>)
    requires path in todo && todo <= s.files.Keys && Orderly(s, todo) && HashesMatch(tools, s)
    requires MigrateFile(tools, s, path).Done?
    ensures HashesMatch(tools, MigrateFile(tools, s, path).store)
  {
  }

  lemma {:induction false} FilesMatch(tools: Tools, s: Store, paths: seq<Path>,
                                      files: map<Path, Content>, workspaces: map<Path, Node>)
    requires Distinct(paths) && SetOf(paths) <= s.files.Keys
    requires Undoes(tools, s, files, workspaces) && Orderly(s, SetOf(paths)) && HashesMatch(tools, s)
    requires AllFiles(tools, s, paths).Done?
    ensures HashesMatch(tools, AllFiles(tools, s, paths).store)
    decreases |paths|
  {
    if paths != [] {
      assert paths[0] in SetOf(paths);
      FileStepMatches(tools, s, paths[0], SetOf(paths));
      FileStep(tools, s, paths[0], SetOf(paths), files, workspaces);
      TurnLeavesRest(tools, s, paths);
      FilesMatch(tools, MigrateFile(tools, s, paths[0]).store, paths[1..], files, workspaces);
    }
  }

  lemma {:induction false} DatabasesLogNoChange(tools: Tools, s: Store, paths: seq<Path>)
    requires forall p :: p in paths ==> p in s.files
    ensures AllDatabases(tools, s, paths).journal.changes == s.journal.changes
    decreases |paths|
  {
    if paths != [] { DatabasesLogNoChange(tools, RewriteDatabase(tools, s, paths[0]), paths[1..]); }
  }

  lemma {:induction false} WorkspacesKeepFiles(s: Store, moves: seq<(Path, Path)>)
    requires AllWorkspaces(s, moves).Done?
    ensures var t := AllWorkspaces(s, moves).store; t.files == s.files && t.journal.changes == s.journal.changes
    decreases |moves|
  {
    if moves != [] { WorkspacesKeepFiles(RenameWorkspace(s, moves[0]).store, moves[1..]); }
  }

  /** A listed file was moved to where the identity registry is kept. */
  predicate MovedOnto(s: Store, registry: Path) {
    exists i :: 0 <= i < |s.journal.changes| && s.journal.changes[i].destination == registry
  }

  predicate SameHash(tools: Tools, s: Store, t: Store, path: Path) {
    path in s.files && path in t.files && tools.hash(s.files[path]) == tools.hash(t.files[path])
  }

  /** Writing the registry breaks only the hash of a file moved onto it. */
  lemma {:induction false} RegistryKeepsHashes(tools: Tools, s: Store, registry: Path)
    requires HashesMatch(tools, s)
    ensures var t := RegisterIdentities(tools, s, registry);
            HashesMatch(tools, t) <==> (MovedOnto(s, registry) ==> SameHash(tools, s, t, registry))
  {
    var t := RegisterIdentities(tools, s, registry);
    assert t.journal.changes == s.journal.changes;
    assert forall p :: p in s.files && p != registry ==> p in t.files && t.files[p] == s.files[p];
  }

  /** The checks on file changes pass right after a run, exactly when no file was moved
      onto the registry or registering the identities left its hash as it was. */
  lemma {:induction false} VerifyAcceptsFiles(
    tools: Tools, files: map<Path, Content>, workspaces: map<Path, Node>, run: Run)
    requires Listed(files, run.databases, run.jsons, run.registry)
    requires Applied(tools, files, workspaces, run).Done?
    ensures var moved := AllFiles(tools, AllDatabases(tools, Store(files, workspaces, EMPTY_JOURNAL), run.databases),
                                  run.jsons).store;
            var t := Applied(tools, files, workspaces, run).store;
            HashesMatch(tools, t) <==> (MovedOnto(moved, run.registry) ==> SameHash(tools, moved, t, run.registry))
  {
    StartUndone(tools, files, workspaces, run);
    var s := AllDatabases(tools, Store(files, workspaces, EMPTY_JOURNAL), run.databases);
    DatabasesLogNoChange(tools, Store(files, workspaces, EMPTY_JOURNAL), run.databases);
    FilesMatch(tools, s, run.jsons, files, workspaces);
    var moved := AllFiles(tools, s, run.jsons).store;
    RegistryKeepsHashes(tools, moved, run.registry);
    WorkspacesKeepFiles(RegisterIdentities(tools, moved, run.registry), run.moves);
  }

  // ---- What a run does, told from the tools and the old files alone ----

  predicate Known(files: map<Path, Content>, paths: seq<Path>) {
    forall p :: p in paths ==> p in files
  }

  /** Where a listed JSON file is put. */
  function Place(tools: Tools, files: map<Path, Content>, p: Path): Path
    requires p in files
  {
    match tools.plan(p, files[p])
    case Change(_, destination) => destination
    case _ => p
  }

  /** What it holds there. */
  function Holds(tools: Tools, files: map<Path, Content>, p: Path): Content
    requires p in files
  {
    match tools.plan(p, files[p])
    case Change(content, _) => content
    case _ => files[p]
  }

  /** A path is taken once the files of `done` have had their turn. */
  predicate Taken(tools: Tools, files: map<Path, Content>, done: seq<Path>, q: Path)
    requires Known(files, done)
  {
    (q in files && q !in done) || exists p :: p in done && Place(tools, files, p) == q
  }

  /** A file goes through unless it is refused or another file is where it is to be put. */
  predicate Goes(tools: Tools, files: map<Path, Content>, done: seq<Path>, p: Path)
    requires Known(files, done) && p in files
  {
    && !tools.plan(p, files[p]).Refuse?
    && (Place(tools, files, p) == p || !Taken(tools, files, done, Place(tools, files, p)))
  }

  /** The files of `done` are in their places with what they are to hold; all others are as
      they were; and there is nothing else. */
  ghost predicate Migrated(tools: Tools, files: map<Path, Content>, done: seq<Path>, now: map<Path, Content>)
    requires Known(files, done)
  {
    && (forall p :: p in done ==>
          Place(tools, files, p) in now && now[Place(tools, files, p)] == Holds(tools, files, p))
    && (forall p :: p in files && p !in done ==> p in now && now[p] == files[p])
    && (forall q :: q in now ==> Taken(tools, files, done, q))
  }

  /** No file has been put where one is still to have its turn. */
  ghost predicate Clear(tools: Tools, files: map<Path, Content>, done: seq<Path>)
    requires Known(files, done)
  {
    forall p, q :: p in done && q in files && q !in done ==> Place(tools, files, p) != q
  }

  lemma {:induction false} OneMoreTaken(tools: Tools, files: map<Path, Content>, done: seq<Path>, p: Path, q: Path)
    requires Known(files, done) && p in files
    ensures Taken(tools, files, done + [p], q)
       <==> (q in files && q !in done && q != p) || (exists x :: x in done && Place(tools, files, x) == q)
            || Place(tools, files, p) == q
  {
    assert forall x :: x in done + [p] <==> x in done || x == p;
  }

  lemma {:induction false} TakenExactly(
    tools: Tools, files: map<Path, Content>, done: seq<Path>, now: map<Path, Content>, q: Path)
    requires Known(files, done) && Migrated(tools, files, done, now)
    ensures q in now <==> Taken(tools, files, done, q)
  {
  }

  /** One file has its turn. */
  lemma {:induction false} TurnMigrates(tools: Tools, files: map<Path, Content>, done: seq<Path>, s: Store, p: Path)
    requires Known(files, done) && p in files && p !in done
    requires Migrated(tools, files, done, s.files) && Clear(tools, files, done)
    ensures MigrateFile(tools, s, p).Done? <==> Goes(tools, files, done, p)
    ensures MigrateFile(tools, s, p).Done? ==>
              && Migrated(tools, files, done + [p], MigrateFile(tools, s, p).store.files)
              && Clear(tools, files, done + [p])
  {
    TakenExactly(tools, files, done, s.files, Place(tools, files, p));
    if MigrateFile(tools, s, p).Done? {
      assert forall x :: x in done + [p] <==> x in done || x == p;
      var now := MigrateFile(tools, s, p).store.files;
      forall q ensures q in now ==> Taken(tools, files, done + [p], q) {
        OneMoreTaken(tools, files, done, p, q);
      }
    }
  }

  /** Each file, from the `i`th on, goes through once those before it have had their turn. */
  ghost predicate AllGo(tools: Tools, files: map<Path, Content>, paths: seq<Path>, i: nat)
    requires Known(files, paths)
  {
    forall k :: i <= k < |paths| ==> Goes(tools, files, paths[..k], paths[k])
  }

  lemma {:induction false} FirstTurn(tools: Tools, s: Store, paths: seq<Path>, i: nat)
    requires i < |paths| && Distinct(paths) && SetOf(paths[i..]) <= s.files.Keys
    ensures paths[i] in s.files
    ensures MigrateFile(tools, s, paths[i]).Failed? ==> AllFiles(tools, s, paths[i..]).Failed?
    ensures MigrateFile(tools, s, paths[i]).Done? ==>
              var t := MigrateFile(tools, s, paths[i]).store;
              SetOf(paths[i + 1..]) <= t.files.Keys && AllFiles(tools, s, paths[i..]) == AllFiles(tools, t, paths[i + 1..])
  {
    var rest := paths[i..];
    assert rest[0] == paths[i] && rest[1..] == paths[i + 1..] && paths[i] in SetOf(rest);
    if MigrateFile(tools, s, rest[0]).Done? { TurnLeavesRest(tools, s, rest); }
  }

  lemma {:induction false} NextTurn(tools: Tools, files: map<Path, Content>, paths: seq<Path>, i: nat, s: Store)
    requires i < |paths| && Known(files, paths) && Distinct(paths) && paths[i] in s.files
    requires Migrated(tools, files, paths[..i], s.files) && Clear(tools, files, paths[..i])
    ensures MigrateFile(tools, s, paths[i]).Done? <==> Goes(tools, files, paths[..i], paths[i])
    ensures MigrateFile(tools, s, paths[i]).Done? ==>
              && Migrated(tools, files, paths[..i + 1], MigrateFile(tools, s, paths[i]).store.files)
              && Clear(tools, files, paths[..i + 1])
  {
    assert paths[..i] + [paths[i]] == paths[..i + 1];
    TurnMigrates(tools, files, paths[..i], s, paths[i]);
  }

  lemma {:induction false} AllTurns(tools: Tools, files: map<Path, Content>, paths: seq<Path>, i: nat, s: Store)
    requires i <= |paths| && Known(files, paths) && Distinct(paths) && SetOf(paths[i..]) <= s.files.Keys
    requires Migrated(tools, files, paths[..i], s.files) && Clear(tools, files, paths[..i])
    ensures AllFiles(tools, s, paths[i..]).Done? <==> AllGo(tools, files, paths, i)
    ensures AllFiles(tools, s, paths[i..]).Done? ==>
              Migrated(tools, files, paths, AllFiles(tools, s, paths[i..]).store.files)
    decreases |paths| - i
  {
    if i == |paths| {
      assert paths[..i] == paths;
    } else {
      FirstTurn(tools, s, paths, i);
      NextTurn(tools, files, paths, i, s);
      if MigrateFile(tools, s, paths[i]).Done? {
        AllTurns(tools, files, paths, i + 1, MigrateFile(tools, s, paths[i]).store);
      }
    }
  }

  /** The files once the databases are rewritten. */
  function Rewritten(tools: Tools, files: map<Path, Content>, databases: seq<Path>): map<Path, Content> {
    map p | p in files :: if p in databases then tools.database(p, files[p]) else files[p]
  }

  lemma {:induction false} DatabasesRewritten(tools: Tools, s: Store, paths: seq<Path>)
    requires Known(s.files, paths) && Distinct(paths)
    ensures AllDatabases(tools, s, paths).files == Rewritten(tools, s.files, paths)
    ensures AllDatabases(tools, s, paths).workspaces == s.workspaces
    decreases |paths|
  {
    if paths != [] {
      var t := RewriteDatabase(tools, s, paths[0]);
      assert paths == [paths[0]] + paths[1..] && paths[0] !in paths[1..];
      assert t.files.Keys == s.files.Keys;
      DatabasesRewritten(tools, t, paths[1..]);
    }
  }

  /** What a completed run makes of the old files. */
  ghost predicate FilesDone(tools: Tools, run: Run, was: map<Path, Content>, now: map<Path, Content>)
    requires Known(was, run.databases) && Known(was, run.jsons)
  {
    && (forall p :: p in run.databases ==> p in now && now[p] == tools.database(p, was[p]))
    && (forall p :: p in run.jsons && Place(tools, was, p) != run.registry ==>
          Place(tools, was, p) in now && now[Place(tools, was, p)] == Holds(tools, was, p))
    && (forall p :: p in was && p !in run.databases && p !in run.jsons && p != run.registry ==>
          p in now && now[p] == was[p])
    && (forall q :: q in now ==> q == run.registry || Taken(tools, was, run.jsons, q))
    && RegistryDone(tools, run, was, now)
  }

  /** The registry is made from what was in its place: the old one, or a file moved there. */
  ghost predicate RegistryDone(tools: Tools, run: Run, was: map<Path, Content>, now: map<Path, Content>)
    requires Known(was, run.jsons)
  {
    && run.registry in now
    && (run.registry in was ==> now[run.registry] == tools.registry(Some(was[run.registry])))
    && (forall p :: p in run.jsons && Place(tools, was, p) == run.registry ==>
          now[run.registry] == tools.registry(Some(Holds(tools, was, p))))
    && (!Taken(tools, was, run.jsons, run.registry) ==> now[run.registry] == tools.registry(None))
  }

  /** Rewriting the databases does not change what becomes of the JSON files. */
  lemma {:induction false} SamePlaces(tools: Tools, files: map<Path, Content>, run: Run)
    requires Listed(files, run.databases, run.jsons, run.registry)
    ensures var g := Rewritten(tools, files, run.databases);
            && Known(g, run.jsons)
            && (forall p :: p in run.jsons ==>
                  Place(tools, g, p) == Place(tools, files, p) && Holds(tools, g, p) == Holds(tools, files, p))
            && (AllGo(tools, g, run.jsons, 0) <==> AllGo(tools, files, run.jsons, 0))
  {
    var g := Rewritten(tools, files, run.databases);
    forall k | 0 <= k < |run.jsons|
      ensures Goes(tools, g, run.jsons[..k], run.jsons[k]) <==> Goes(tools, files, run.jsons[..k], run.jsons[k])
    {
      SameGoes(tools, files, g, run.jsons[..k], run.jsons[k]);
    }
  }

  lemma {:induction false} SameGoes(
    tools: Tools, files: map<Path, Content>, g: map<Path, Content>, done: seq<Path>, p: Path)
    requires files.Keys == g.Keys && Known(files, done) && p in files && g[p] == files[p]
    requires forall x :: x in done ==> g[x] == files[x]
    ensures Goes(tools, g, done, p) <==> Goes(tools, files, done, p)
    ensures forall q :: Taken(tools, g, done, q) <==> Taken(tools, files, done, q)
  {
    forall q ensures Taken(tools, g, done, q) <==> Taken(tools, files, done, q) {
      assert forall x :: x in done ==> Place(tools, g, x) == Place(tools, files, x);
    }
  }

  /** The files of a run: when they all go through, and what becomes of them. */
  lemma {:induction false} FilesMigrate(tools: Tools, files: map<Path, Content>, workspaces: map<Path, Node>, run: Run)
    requires Listed(files, run.databases, run.jsons, run.registry)
    ensures var s := AllDatabases(tools, Store(files, workspaces, EMPTY_JOURNAL), run.databases);
            && s.workspaces == workspaces
            && (AllFiles(tools, s, run.jsons).Done? <==> AllGo(tools, files, run.jsons, 0))
            && (AllFiles(tools, s, run.jsons).Done? ==>
                 var t := AllFiles(tools, s, run.jsons).store;
                 FilesDone(tools, run, files, RegisterIdentities(tools, t, run.registry).files))
  {
    var s := AllDatabases(tools, Store(files, workspaces, EMPTY_JOURNAL), run.databases);
    DatabasesRewritten(tools, Store(files, workspaces, EMPTY_JOURNAL), run.databases);
    assert run.jsons[0..] == run.jsons && run.jsons[..0] == [];
    AllTurns(tools, s.files, run.jsons, 0, s);
    SamePlaces(tools, files, run);
    if AllFiles(tools, s, run.jsons).Done? {
      RegistryMakes(tools, files, run, AllFiles(tools, s, run.jsons).store);
    }
  }

  lemma {:induction false} RegistryMakes(tools: Tools, files: map<Path, Content>, run: Run, s: Store)
    requires Listed(files, run.databases, run.jsons, run.registry)
    requires Known(Rewritten(tools, files, run.databases), run.jsons)
    requires Migrated(tools, Rewritten(tools, files, run.databases), run.jsons, s.files)
    ensures FilesDone(tools, run, files, RegisterIdentities(tools, s, run.registry).files)
  {
    var g := Rewritten(tools, files, run.databases);
    SamePlaces(tools, files, run);
    forall q ensures q in s.files <==> Taken(tools, files, run.jsons, q) {
      TakenExactly(tools, g, run.jsons, s.files, q);
    }
  }

  // ---- Where a workspace goes ----

  /** Where a tree is after the first `n` moves. */
  function Follow(moves: seq<(Path, Path)>, n: nat, p: Path): Path
    requires n <= |moves|
    decreases n
  {
    if n == 0 then p
    else
      var q := Follow(moves, n - 1, p);
      if q == moves[n - 1].0 then moves[n - 1].1 else q
  }

  /** Where the trees are after `n` moves. */
  function Places(moves: seq<(Path, Path)>, n: nat): Path -> Path
    requires n <= |moves|
  {
    p => Follow(moves, n, p)
  }

  /** One of the workspaces is at `q`. */
  predicate Reached(workspaces: map<Path, Node>, at: Path -> Path, q: Path) {
    exists p :: p in workspaces && at(p) == q
  }

  /** A workspace is at `q` after the first `n` moves. */
  predicate Occupied(workspaces: map<Path, Node>, moves: seq<(Path, Path)>, n: nat, q: Path)
    requires n <= |moves|
  {
    Reached(workspaces, Places(moves, n), q)
  }

  /** A move goes through if there is nothing to move, or a directory and nothing in its way. */
  ghost predicate MoveGoes(workspaces: map<Path, Node>, moves: seq<(Path, Path)>, n: nat)
    requires n < |moves|
  {
    Occupied(workspaces, moves, n, moves[n].0) ==>
      && (forall p :: p in workspaces && Follow(moves, n, p) == moves[n].0 ==> workspaces[p].Directory?)
      && !Occupied(workspaces, moves, n, moves[n].1)
  }

  ghost predicate MovesGo(workspaces: map<Path, Node>, moves: seq<(Path, Path)>, i: nat) {
    forall n :: i <= n < |moves| ==> MoveGoes(workspaces, moves, n)
  }

  /** Each workspace is where `at` says, with its tree; none is in the place of another, and
      there is nothing else. */
  ghost predicate TreesAre(was: map<Path, Node>, at: Path -> Path, now: map<Path, Node>) {
    && (forall p :: p in was ==> at(p) in now && now[at(p)] == was[p])
    && (forall q :: q in now ==> Reached(was, at, q))
    && (forall p, q :: p in was && q in was && p != q ==> at(p) != at(q))
  }

  ghost predicate TreesFollow(was: map<Path, Node>, moves: seq<(Path, Path)>, n: nat, now: map<Path, Node>)
    requires n <= |moves|
  {
    TreesAre(was, Places(moves, n), now)
  }

  function Redirected(at: Path -> Path, source: Path, destination: Path): Path -> Path {
    p => if at(p) == source then destination else at(p)
  }

  lemma {:induction false} SameTrees(was: map<Path, Node>, at: Path -> Path, next: Path -> Path, now: map<Path, Node>)
    requires TreesAre(was, at, now) && forall p :: p in was ==> next(p) == at(p)
    ensures TreesAre(was, next, now)
  {
    forall q | q in now ensures Reached(was, next, q) {
      assert Reached(was, at, q);
      var p :| p in was && at(p) == q;
      assert next(p) == q;
    }
  }

  lemma {:induction false} ReachedOn(
    was: map<Path, Node>, at: Path -> Path, source: Path, destination: Path, q: Path)
    requires Reached(was, at, if q == destination then source else q) && q != source
    ensures Reached(was, Redirected(at, source, destination), q)
  {
    var p :| p in was && at(p) == if q == destination then source else q;
    assert Redirected(at, source, destination)(p) == q;
  }

  /** One tree moves to a free place. */
  lemma {:induction false} TreeMoves(
    was: map<Path, Node>, at: Path -> Path, now: map<Path, Node>, source: Path, destination: Path)
    requires TreesAre(was, at, now) && source in now && destination !in now
    ensures TreesAre(was, Redirected(at, source, destination), (now - {source})[destination := now[source]])
  {
    var next, moved := Redirected(at, source, destination), (now - {source})[destination := now[source]];
    TreesArrive(was, at, next, source, destination, now, moved);
    forall q | q in moved ensures Reached(was, next, q) {
      ReachedOn(was, at, source, destination, q);
    }
  }

  lemma {:induction false} TreesArrive(
    was: map<Path, Node>, at: Path -> Path, next: Path -> Path, source: Path, destination: Path, now: map<Path, Node>,
    moved: map<Path, Node>)
    requires TreesAre(was, at, now) && source in now && destination !in now
    requires next == Redirected(at, source, destination) && moved == (now - {source})[destination := now[source]]
    ensures forall p :: p in was ==> next(p) in moved && moved[next(p)] == was[p]
    ensures forall p, q :: p in was && q in was && p != q ==> next(p) != next(q)
  {
    forall p | p in was ensures next(p) in moved && moved[next(p)] == was[p] {
      assert at(p) in now && now[at(p)] == was[p];
    }
    forall p, q | p in was && q in was && p != q ensures next(p) != next(q) {
      assert at(p) != at(q) && at(p) in now && at(q) in now;
    }
  }

  lemma {:induction false} NoTreeMoves(
    was: map<Path, Node>, at: Path -> Path, now: map<Path, Node>, source: Path, destination: Path)
    requires TreesAre(was, at, now) && source !in now
    ensures TreesAre(was, Redirected(at, source, destination), now)
  {
    SameTrees(was, at, Redirected(at, source, destination), now);
  }

  lemma {:induction false} PlacesMove(moves: seq<(Path, Path)>, n: nat, p: Path)
    requires n < |moves|
    ensures Places(moves, n + 1)(p) == Redirected(Places(moves, n), moves[n].0, moves[n].1)(p)
  {
  }

  lemma {:induction false} OccupiedExactly(was: map<Path, Node>, moves: seq<(Path, Path)>, n: nat, now: map<Path, Node>)
    requires n <= |moves| && TreesFollow(was, moves, n, now)
    ensures forall q :: Occupied(was, moves, n, q) <==> q in now
  {
  }

  lemma {:induction false} MoveFollows(was: map<Path, Node>, moves: seq<(Path, Path)>, n: nat, s: Store)
    requires n < |moves| && TreesFollow(was, moves, n, s.workspaces)
    ensures RenameWorkspace(s, moves[n]).Done? <==> MoveGoes(was, moves, n)
    ensures RenameWorkspace(s, moves[n]).Done? ==>
              && TreesFollow(was, moves, n + 1, RenameWorkspace(s, moves[n]).store.workspaces)
              && RenameWorkspace(s, moves[n]).store.files == s.files
  {
    OccupiedExactly(was, moves, n, s.workspaces);
    if RenameWorkspace(s, moves[n]).Done? {
      var (source, destination) := moves[n];
      var now := RenameWorkspace(s, moves[n]).store.workspaces;
      if source in s.workspaces {
        TreeMoves(was, Places(moves, n), s.workspaces, source, destination);
      } else {
        NoTreeMoves(was, Places(moves, n), s.workspaces, source, destination);
      }
      forall p | p in was
        ensures Places(moves, n + 1)(p) == Redirected(Places(moves, n), source, destination)(p)
      {
        PlacesMove(moves, n, p);
      }
      SameTrees(was, Redirected(Places(moves, n), source, destination), Places(moves, n + 1), now);
    }
  }

  lemma {:induction false} AllMoves(was: map<Path, Node>, moves: seq<(Path, Path)>, i: nat, s: Store)
    requires i <= |moves| && TreesFollow(was, moves, i, s.workspaces)
    ensures AllWorkspaces(s, moves[i..]).Done? <==> MovesGo(was, moves, i)
    ensures AllWorkspaces(s, moves[i..]).Done? ==>
              && TreesFollow(was, moves, |moves|, AllWorkspaces(s, moves[i..]).store.workspaces)
              && AllWorkspaces(s, moves[i..]).store.files == s.files
    decreases |moves| - i
  {
    if i < |moves| {
      assert moves[i..][0] == moves[i] && moves[i..][1..] == moves[i + 1..];
      MoveFollows(was, moves, i, s);
      if RenameWorkspace(s, moves[i]).Done? { AllMoves(was, moves, i + 1, RenameWorkspace(s, moves[i]).store); }
    }
  }

  /** When a run completes, and what it makes of the files and workspaces. */
  lemma {:induction false} RunMigrates(tools: Tools, files: map<Path, Content>, workspaces: map<Path, Node>, run: Run)
    requires Listed(files, run.databases, run.jsons, run.registry)
    ensures Applied(tools, files, workspaces, run).Done?
       <==> AllGo(tools, files, run.jsons, 0) && MovesGo(workspaces, run.moves, 0)
    ensures Applied(tools, files, workspaces, run).Done? ==>
              && FilesDone(tools, run, files, Applied(tools, files, workspaces, run).store.files)
              && TreesFollow(workspaces, run.moves, |run.moves|, Applied(tools, files, workspaces, run).store.workspaces)
  {
    FilesMigrate(tools, files, workspaces, run);
    var s := AllDatabases(tools, Store(files, workspaces, EMPTY_JOURNAL), run.databases);
    if AllFiles(tools, s, run.jsons).Done? {
      var t := AllFiles(tools, s, run.jsons).store;
      FilesKeepWorkspaces(tools, s, run.jsons);
      WorkspacesMigrate(tools, t, run.registry, run.moves);
    }
  }

  lemma {:induction false} WorkspacesMigrate(tools: Tools, s: Store, registry: Path, moves: seq<(Path, Path)>)
    ensures var t := RegisterIdentities(tools, s, registry);
            && (AllWorkspaces(t, moves).Done? <==> MovesGo(s.workspaces, moves, 0))
            && (AllWorkspaces(t, moves).Done? ==>
                 && TreesFollow(s.workspaces, moves, |moves|, AllWorkspaces(t, moves).store.workspaces)
                 && AllWorkspaces(t, moves).store.files == t.files)
  {
    assert moves[0..] == moves;
    AllMoves(s.workspaces, moves, 0, RegisterIdentities(tools, s, registry));
  }

  lemma {:induction false} FilesKeepWorkspaces(tools: Tools, s: Store, paths: seq<Path>)
    requires Distinct(paths) && SetOf(paths) <= s.files.Keys && AllFiles(tools, s, paths).Done?
    ensures AllFiles(tools, s, paths).store.workspaces == s.workspaces
    decreases |paths|
  {
    if paths != [] {
      assert paths[0] in SetOf(paths);
      TurnLeavesRest(tools, s, paths);
      FilesKeepWorkspaces(tools, MigrateFile(tools, s, paths[0]).store, paths[1..]);
    }
  }

  // ---- What was changed since is not taken back ----

  /** Backup `i` was of a file that moved, and what is now in its place has another hash than
      what was put there; later backups concern other paths. */
  predicate ChangedSince(tools: Tools, files: map<Path, Content>, j: Journal, i: nat)
    requires i < |j.backups|
  {
    var b := j.backups[i];
    && b.renamed && b.source != b.destination && b.destination in files
    && (exists c :: c in j.changes && c.destination == b.destination)
    && (forall c :: c in j.changes && c.destination == b.destination ==> c.hash != tools.hash(files[b.destination]))
    && (forall k :: i < k < |j.backups| ==>
          j.backups[k].source != b.destination && j.backups[k].destination != b.destination)
  }

  lemma {:induction false} SomeHash(changes: seq<FileChange>, destination: Path)
    requires exists c :: c in changes && c.destination == destination
    ensures FirstHash(changes, destination).Some?
    ensures exists c :: c in changes && c.destination == destination && FirstHash(changes, destination) == Some(c.hash)
  {
    if changes[0].destination != destination {
      SomeHash(changes[1..], destination);
    } else {
      assert changes[0] in changes;
    }
  }

  /** A file that was changed since its migration stops the rollback. */
  lemma {:induction false} ChangedFileStops(tools: Tools, files: map<Path, Content>, j: Journal, i: nat, n: nat)
    requires i < n <= |j.backups| && ChangedSince(tools, files, j, i)
    ensures AllRestored(tools, files, j, n).None?
    decreases n
  {
    if n == i + 1 {
      SomeHash(j.changes, j.backups[i].destination);
    } else {
      var restored := Restored(tools, files, j, j.backups[n - 1]);
      if restored.Some? { ChangedFileStops(tools, restored.value, j, i, n - 1); }
    }
  }

  /** So does a workspace whose tree is another one now. */
  lemma {:induction false} ChangedTreeStops(workspaces: map<Path, Node>, renames: seq<Rename>, i: nat, n: nat)
    requires i < n <= |renames| && renames[i].destination in workspaces && renames[i].source !in workspaces
    requires workspaces[renames[i].destination] != Directory(renames[i].tree)
    requires forall k :: i < k < |renames| ==>
               renames[k].source != renames[i].destination && renames[k].destination != renames[i].destination
               && renames[k].source != renames[i].source
    ensures AllRenamedBack(workspaces, renames, n).None?
    decreases n
  {
    if n > i + 1 {
      var back := RenamedBack(workspaces, renames[n - 1]);
      if back.Some? { ChangedTreeStops(back.value, renames, i, n - 1); }
    }
  }

  // ---- The migration at work ----

  class Migrator {
    var files: map<Path, Content>
    var workspaces: map<Path, Node>
    var journal: Journal
    const tools: Tools

    function Value(): Store
      reads this
    {
      Store(files, workspaces, journal)
    }

    constructor (tools: Tools, files: map<Path, Content>, workspaces: map<Path, Node>)
      ensures this.tools == tools && Value() == Store(files, workspaces, EMPTY_JOURNAL)
    {
      this.tools, this.files, this.workspaces, journal := tools, files, workspaces, EMPTY_JOURNAL;
    }

    method BackUp(path: Path, destination: Path)
      requires path in files
      modifies this`journal
      ensures journal ==
              WithBackup(old(journal), Backup(path, destination, true, destination != path), files[path])
    {
      journal := journal.(
        backups := journal.backups + [Backup(path, destination, true, destination != path)],
        copies := journal.copies[path := files[path]]);
    }

    method RewriteDatabases(paths: seq<Path>)
      requires forall p :: p in paths ==> p in files
      modifies this
      ensures Value() == AllDatabases(tools, old(Value()), paths)
      ensures Distinct(paths) ==> files == Rewritten(tools, old(files), paths) && workspaces == old(workspaces)
    {
      if Distinct(paths) { DatabasesRewritten(tools, Value(), paths); }
      ghost var start := Value();
      for i := 0 to |paths|
        invariant files.Keys == old(files).Keys
        invariant AllDatabases(tools, Value(), paths[i..]) == AllDatabases(tools, start, paths)
      {
        var path := paths[i];
        assert paths[i..][0] == path && paths[i..][1..] == paths[i + 1..];
        BackUp(path, path);
        files := files[path := tools.database(path, files[path])];
      }
    }

    method MigrateFiles(paths: seq<Path>) returns (ok: bool)
      requires Distinct(paths) && SetOf(paths) <= files.Keys
      modifies this
      ensures ok == AllFiles(tools, old(Value()), paths).Done?
      ensures ok ==> Value() == AllFiles(tools, old(Value()), paths).store
    {
      ghost var start := Value();
      for i := 0 to |paths|
        invariant Distinct(paths[i..]) && SetOf(paths[i..]) <= files.Keys
        invariant AllFiles(tools, Value(), paths[i..]) == AllFiles(tools, start, paths)
      {
        ghost var before, rest := Value(), paths[i..];
        assert rest[0] == paths[i] && rest[1..] == paths[i + 1..] && paths[i] in SetOf(rest);
        if MigrateFile(tools, before, rest[0]).Done? { TurnLeavesRest(tools, before, rest); }
        var went := MigrateOne(paths[i]);
        if !went {
          return false;
        }
      }
      ok := true;
    }

    method MigrateOne(path: Path) returns (ok: bool)
      requires path in files
      modifies this
      ensures ok == MigrateFile(tools, old(Value()), path).Done?
      ensures ok ==> Value() == MigrateFile(tools, old(Value()), path).store
    {
      match tools.plan(path, files[path])
      case Skip =>
        ok := true;
      case Refuse =>
        ok := false;
      case Change(content, destination) =>
        BackUp(path, destination);
        if destination != path && destination in files {
          return false;
        }
        files := (files - {path})[destination := content];
        journal := journal.(changes := journal.changes + [FileChange(path, destination, tools.hash(content))]);
        ok := true;
    }

    method Register(path: Path)
      modifies this
      ensures Value() == RegisterIdentities(tools, old(Value()), path)
    {
      if path in files {
        BackUp(path, path);
        files := files[path := tools.registry(Some(files[path]))];
      } else {
        journal := journal.(backups := journal.backups + [Backup(path, path, false, false)]);
        files := files[path := tools.registry(None)];
      }
    }

    method RenameWorkspaces(moves: seq<(Path, Path)>) returns (ok: bool)
      modifies this
      ensures ok == AllWorkspaces(old(Value()), moves).Done?
      ensures ok ==> Value() == AllWorkspaces(old(Value()), moves).store
    {
      ghost var start := Value();
      for i := 0 to |moves|
        invariant AllWorkspaces(Value(), moves[i..]) == AllWorkspaces(start, moves)
      {
        assert moves[i..][0] == moves[i] && moves[i..][1..] == moves[i + 1..];
        var (source, destination) := moves[i];
        if source in workspaces {
          if workspaces[source].Other? || destination in workspaces {
            return false;
          }
          var node := workspaces[source];
          workspaces := (workspaces - {source})[destination := node];
          journal := journal.(renames := journal.renames + [Rename(source, destination, node.tree)]);
        }
      }
      ok := true;
    }

    method Apply(run: Run) returns (ok: bool)
      requires journal == EMPTY_JOURNAL && Listed(files, run.databases, run.jsons, run.registry)
      modifies this
      ensures ok == Applied(tools, old(files), old(workspaces), run).Done?
      ensures ok ==> Value() == Applied(tools, old(files), old(workspaces), run).store
      ensures ok <==> AllGo(tools, old(files), run.jsons, 0) && MovesGo(old(workspaces), run.moves, 0)
      ensures ok ==> FilesDone(tools, run, old(files), files)
      ensures ok ==> TreesFollow(old(workspaces), run.moves, |run.moves|, workspaces)
      ensures ok ==> Undoes(tools, Value(), old(files), old(workspaces))
    {
      RunMigrates(tools, files, workspaces, run);
      RewriteDatabases(run.databases);
      ok := MigrateFiles(run.jsons);
      if ok {
        Register(run.registry);
        ok := RenameWorkspaces(run.moves);
      }
      if ok { RollbackUndoesApply(tools, old(files), old(workspaces), run); }
    }

    /** Not `ok` if something was changed since, which is then left alone. */
    method Rollback() returns (ok: bool)
      modifies this
      ensures var moved := AllRenamedBack(old(workspaces), old(journal).renames, |old(journal).renames|);
              var restored := AllRestored(tools, old(files), old(journal), |old(journal).backups|);
              && ok == (moved.Some? && restored.Some?)
              && (ok ==> workspaces == moved.value && files == restored.value)
    {
      var i: nat := |journal.renames|;
      while i > 0
        invariant i <= |journal.renames| && journal == old(journal) && files == old(files)
        invariant AllRenamedBack(workspaces, journal.renames, i) ==
                  AllRenamedBack(old(workspaces), journal.renames, |journal.renames|)
      {
        i := i - 1;
        var back := RenamedBack(workspaces, journal.renames[i]);
        if back.None? {
          return false;
        }
        workspaces := back.value;
      }
      i := |journal.backups|;
      while i > 0
        invariant i <= |journal.backups| && journal == old(journal)
        invariant AllRenamedBack(old(workspaces), journal.renames, |journal.renames|) == Some(workspaces)
        invariant AllRestored(tools, files, journal, i) == AllRestored(tools, old(files), journal, |journal.backups|)
      {
        i := i - 1;
        var restored := Restored(tools, files, journal, journal.backups[i]);
        if restored.None? {
          return false;
        }
        files := restored.value;
      }
      ok := true;
    }
  }
}