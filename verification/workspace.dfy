/** The per-session file store: `FileManager` of manus-backend/app/services/file_manager.py over an
  * abstract disk. The disk is a map from absolute paths (lists of components) to entries; `mkdir`,
  * `open`, `unlink` and `rmtree` become updates of that map. */
module Workspace {
  import opened Text
  import opened Paths

  // ---------------------------------------------------------------------------
  // The disk

  /** What a regular file's bytes are to a strict UTF-8 decoder: text, or bytes it rejects (as a
    * command can leave behind), with the rest of CPython's `UnicodeDecodeError` message after
    * "can't decode ", which names the offending byte and its position. */
  datatype Bytes = Decodes(text: string) | Undecodable(reason: string)

  /** A regular file with its bytes, or a directory. A directory that is not `listable` makes
    * `iterdir()` raise `PermissionError`. */
  datatype Entry = File(bytes: Bytes) | Dir(listable: bool)

  type Fs = map<Path, Entry>

  /** `path.parent`; the parent of `/` is `/`. */
  function Parent(p: Path): Path
  {
    if p == [] then [] else p[..|p| - 1]
  }

  /** A disk as the operating system keeps it: `/` is a directory, every path is made of plain
    * components, and the parent of every other path is a directory on the disk. */
  predicate WellFormed(fs: Fs)
  {
    && [] in fs && fs[[]].Dir?
    && forall p :: p in fs ==> PlainPath(p) && (p != [] ==> Parent(p) in fs && fs[Parent(p)].Dir?)
  }

  /** The paths strictly below `p`. */
  ghost function Desc(fs: Fs, p: Path): set<Path>
  {
    set q | q in fs.Keys && p < q
  }

  /** The names of the entries directly inside `p`. */
  function ChildNames(fs: Fs, p: Path): set<string>
  {
    set q | q in fs.Keys && |q| == |p| + 1 && p <= q :: q[|p|]
  }

  // ---------------------------------------------------------------------------
  // Errors and replies

  /** The `OSError`s the store can meet, each naming the path it is about. */
  datatype OsError =
    | FileExists(path: Path)      // errno 17
    | NotADirectoryOs(path: Path) // errno 20
    | IsADirectory(path: Path)    // errno 21

  /** Every way an operation fails; all of them become `{"success": False, "error": str(e)}`. */
  datatype FileError =
    | Denied(path: string)
    | TooLarge(limit: nat)
    | NotFound(path: string)
    | NotAFile(path: string)
    | DirNotFound(path: string)
    | NotADirectory(path: string)
    | Os(err: OsError)
    | NotRelative(target: Path, root: Path)
    | NoneOperand  // `root / None`, for a missing path argument
    | NoneContent  // `None.encode(...)`, for a missing content argument
    | DecodeFailed(reason: string)

  function Quote(p: Path): string
  {
    "'" + Render(p) + "'"
  }

  /** `str(e)` for each error: the store's own Portuguese messages and CPython's `OSError` texts. */
  function Message(e: FileError): (m: string)
    ensures m != []
  {
    match e
    case Denied(path) => "Acesso negado: caminho fora do workspace: " + path
    case TooLarge(limit) => "Arquivo muito grande (máx: " + NatToString(limit) + " bytes)"
    case NotFound(path) => "Arquivo não encontrado: " + path
    case NotAFile(path) => "Não é um arquivo: " + path
    case DirNotFound(path) => "Diretório não encontrado: " + path
    case NotADirectory(path) => "Não é um diretório: " + path
    case Os(FileExists(p)) => "[Errno 17] File exists: " + Quote(p)
    case Os(NotADirectoryOs(p)) => "[Errno 20] Not a directory: " + Quote(p)
    case Os(IsADirectory(p)) => "[Errno 21] Is a directory: " + Quote(p)
    case NotRelative(target, root) => Quote(target) + " is not in the subpath of " + Quote(root)
    case NoneOperand => "unsupported operand type(s) for /: 'PosixPath' and 'NoneType'"
    case NoneContent => "'NoneType' object has no attribute 'encode'"
    case DecodeFailed(reason) => "'utf-8' codec can't decode " + reason
  }

  datatype NodeKind = FileNode | DirectoryNode

  /** `FileNode` of the API schema. */
  datatype Node = Node(name: string, path: string, kind: NodeKind, children: Children)

  /** The optional `children` list: `Unset` is Python's `None`. */
  datatype Children = Unset | Nodes(list: seq<Node>)

  /** The dictionaries the operations return. */
  datatype Reply =
    | Failure(error: FileError)
    | Written(path: string, size: nat)
    | Content(path: string, content: string)
    | Listing(tree: Node)
    | Deleted(path: string)
  {
    predicate Success() { !Failure? }
  }

  // ---------------------------------------------------------------------------
  // mkdir(parents=True, exist_ok=True)

  function Prefixes(q: Path): set<Path>
  {
    set i | 0 <= i <= |q| :: q[..i]
  }

  /** Some proper ancestor of `q` is a regular file. */
  predicate BlockedByFile(fs: Fs, q: Path)
  {
    exists i :: 0 <= i < |q| && q[..i] in fs && fs[q[..i]].File?
  }

  /** `q.mkdir(parents=True, exist_ok=True)`: nothing to do for an existing directory; errno 17 for an
    * existing file; errno 20, naming `q`, when the walk down to `q` meets a file; otherwise every
    * missing ancestor and `q` itself are created. */
  function Mkdirs(fs: Fs, q: Path): Result<Fs, OsError>
  {
    if q in fs then
      (if fs[q].Dir? then Ok(fs) else Err(FileExists(q)))
    else if BlockedByFile(fs, q) then Err(NotADirectoryOs(q))
    else Ok(map k | k in fs.Keys + Prefixes(q) :: if k in fs then fs[k] else Dir(true))
  }

  lemma MkdirsSpec(fs: Fs, q: Path)
    requires WellFormed(fs) && PlainPath(q)
    ensures Mkdirs(fs, q).Ok? <==> (q in fs ==> fs[q].Dir?) && !BlockedByFile(fs, q)
    ensures Mkdirs(fs, q).Ok? ==>
              var fs1 := Mkdirs(fs, q).value;
              && WellFormed(fs1)
              && q in fs1 && fs1[q].Dir?
              && (forall k :: k in fs ==> k in fs1 && fs1[k] == fs[k])
              && (forall k :: k in fs1 && k !in fs ==> k <= q && fs1[k] == Dir(true))
  {
    if q in fs {
      AncestorsAreDirs(fs, q);
    }
    if Mkdirs(fs, q).Ok? {
      var fs1 := Mkdirs(fs, q).value;
      if q !in fs {
        assert q[..|q|] == q;
        forall k | k in fs1 && k != [] ensures PlainPath(k) && Parent(k) in fs1 && fs1[Parent(k)].Dir? {
          if k !in fs {
            var i :| 0 <= i <= |q| && k == q[..i];
            assert Parent(k) == q[..i - 1];
            assert forall j :: 0 <= j < |k| ==> k[j] == q[j];
          }
        }
      }
    }
  }

  /** On a well-formed disk, every proper ancestor of an entry is a directory. */
  lemma {:induction false} AncestorsAreDirs(fs: Fs, q: Path)
    requires WellFormed(fs) && q in fs
    ensures forall i :: 0 <= i < |q| ==> q[..i] in fs && fs[q[..i]].Dir?
    decreases |q|
  {
    if q != [] {
      AncestorsAreDirs(fs, Parent(q));
      forall i | 0 <= i < |q| ensures q[..i] in fs && fs[q[..i]].Dir? {
        if i < |q| - 1 {
          assert q[..i] == Parent(q)[..i];
        }
      }
    }
  }

  // ---------------------------------------------------------------------------
  // Reading back: text mode with universal newlines

  /** What `open(path, 'r').read()` returns for stored text: "\r\n" and a lone "\r" are read as "\n". */
  function Universal(s: string): (r: string)
    ensures '\r' !in r
    ensures |r| <= |s|
  {
    if s == [] then []
    else if s[0] == '\r' then "\n" + Universal(if |s| > 1 && s[1] == '\n' then s[2..] else s[1..])
    else [s[0]] + Universal(s[1..])
  }

  lemma {:induction false} UniversalIdentity(s: string)
    requires '\r' !in s
    ensures Universal(s) == s
  {
    if s != [] {
      assert '\r' !in s[1..];
      UniversalIdentity(s[1..]);
    }
  }

  /** Reading translates once and for all: a second translation changes nothing. */
  lemma UniversalIdempotent(s: string)
    ensures Universal(Universal(s)) == Universal(s)
  {
    UniversalIdentity(Universal(s));
  }

  lemma UniversalCrLf()
    ensures Universal("a\r\nb") == "a\nb"
  {
    assert "a\r\nb"[1..] == "\r\nb";
    assert "\r\nb"[2..] == "b";
    assert "b"[1..] == "";
  }

  // ---------------------------------------------------------------------------
  // The operations, as functions of the disk

  /** `write_file`: the guard, then the parent directories, then the size check (the directories stay
    * created when it fails), then the open for writing. The reported size counts characters. */
  function Write(fs: Fs, root: Path, maxSize: nat, path: string, content: string): (Reply, Fs)
  {
    match Resolve(root, path)
    case None => (Failure(Denied(path)), fs)
    case Some(p) =>
      match Mkdirs(fs, Parent(p))
      case Err(e) => (Failure(Os(e)), fs)
      case Ok(fs1) =>
        if Utf8Length(content) > maxSize then (Failure(TooLarge(maxSize)), fs1)
        else if p in fs1 && fs1[p].Dir? then (Failure(Os(IsADirectory(p))), fs1)
        else (Written(path, |content|), fs1[p := File(Decodes(content))])
  }

  /** `write_file` reached with arguments that may be missing (`None`): a missing path fails in the
    * guard's `/`, a missing content in the size check, after the parent directories are made. */
  function WriteArgs(fs: Fs, root: Path, maxSize: nat, path: Option<string>, content: Option<string>): (Reply, Fs)
  {
    match (path, content)
    case (None, _) => (Failure(NoneOperand), fs)
    case (Some(path), Some(content)) => Write(fs, root, maxSize, path, content)
    case (Some(path), None) =>
      match Resolve(root, path)
      case None => (Failure(Denied(path)), fs)
      case Some(p) =>
        match Mkdirs(fs, Parent(p))
        case Err(e) => (Failure(Os(e)), fs)
        case Ok(fs1) => (Failure(NoneContent), fs1)
  }

  /** `read_file`: the guard, then existence, then the file check, then the strict UTF-8 read. */
  function Read(fs: Fs, root: Path, path: string): Reply
  {
    match Resolve(root, path)
    case None => Failure(Denied(path))
    case Some(p) =>
      if p !in fs then Failure(NotFound(path))
      else if fs[p].Dir? then Failure(NotAFile(path))
      else match fs[p].bytes
        case Undecodable(reason) => Failure(DecodeFailed(reason))
        case Decodes(text) => Content(path, Universal(text))
  }

  /** `read_file` reached with a path argument that may be missing. */
  function ReadArg(fs: Fs, root: Path, path: Option<string>): Reply
  {
    if path.None? then Failure(NoneOperand) else Read(fs, root, path.value)
  }

  /** The disk without `p` and everything under it (`unlink` for a file, `rmtree` for a directory). */
  function RemoveTree(fs: Fs, p: Path): Fs
  {
    map k | k in fs.Keys && !(p <= k) :: fs[k]
  }

  /** `delete_file`: the guard, then existence, then the removal. */
  function Delete(fs: Fs, root: Path, path: string): (Reply, Fs)
  {
    match Resolve(root, path)
    case None => (Failure(Denied(path)), fs)
    case Some(p) =>
      if p !in fs then (Failure(NotFound(path)), fs)
      else (Deleted(path), RemoveTree(fs, p))
  }

  // ---------------------------------------------------------------------------
  // The listing tree

  predicate Hidden(name: string)
  {
    "." <= name
  }

  /** `str(p.relative_to(root))`. */
  function RelativeText(rel: seq<string>): string
  {
    if rel == [] then "." else JoinWith(rel, "/")
  }

  function LastName(p: Path): string
  {
    if p == [] then "" else p[|p| - 1]
  }

  lemma DescShrinks(fs: Fs, p: Path, c: Path)
    requires c in fs && p < c
    ensures |Desc(fs, c)| < |Desc(fs, p)|
  {
    assert Desc(fs, c) <= Desc(fs, p) - {c};
    SubsetSize(Desc(fs, c), Desc(fs, p) - {c});
  }

  lemma {:induction false} SubsetSize<T>(a: set<T>, b: set<T>)
    requires a <= b
    ensures |a| <= |b|
    decreases |a|
  {
    if a != {} {
      var x :| x in a;
      SubsetSize(a - {x}, b - {x});
    }
  }

  /** `build_tree(p)`: a file is a leaf; a directory lists its entries in sorted order, skipping
    * hidden names, and has no children (`Unset`) when nothing is listed or listing is refused. */
  function Tree(fs: Fs, root: Path, p: Path): Node
    requires p in fs && root <= p
    decreases |Desc(fs, p)|, 1
  {
    var here := RelativeText(p[|root|..]);
    match fs[p]
    case File(_) => Node(LastName(p), here, FileNode, Unset)
    case Dir(listable) =>
      var kids := if listable then Subtrees(fs, root, p, SortedSet(ChildNames(fs, p))) else [];
      Node(LastName(p), here, DirectoryNode, if kids == [] then Unset else Nodes(kids))
  }

  /** The loop body of `build_tree` over `names`: hidden names are skipped, the others recurse. */
  function Subtrees(fs: Fs, root: Path, p: Path, names: seq<string>): seq<Node>
    requires p in fs && root <= p
    requires forall n :: n in names ==> n in ChildNames(fs, p)
    decreases |Desc(fs, p)|, 0, |names|
  {
    if names == [] then []
    else
      var rest := Subtrees(fs, root, p, names[1..]);
      if Hidden(names[0]) then rest
      else
        ChildIn(fs, p, names[0]);
        DescShrinks(fs, p, p + [names[0]]);
        [Tree(fs, root, p + [names[0]])] + rest
  }

  lemma TreeShape(fs: Fs, root: Path, p: Path)
    requires p in fs && root <= p
    ensures var here := RelativeText(p[|root|..]);
            && (fs[p].File? ==> Tree(fs, root, p) == Node(LastName(p), here, FileNode, Unset))
            && (fs[p].Dir? ==>
                  var kids := if fs[p].listable then Subtrees(fs, root, p, SortedSet(ChildNames(fs, p))) else [];
                  Tree(fs, root, p) == Node(LastName(p), here, DirectoryNode, if kids == [] then Unset else Nodes(kids)))
  {
  }

  /** One step of the walk: the first name's subtree, unless it is hidden, then the rest. */
  lemma SubtreesStep(fs: Fs, root: Path, p: Path, names: seq<string>)
    requires p in fs && root <= p && names != []
    requires forall n :: n in names ==> n in ChildNames(fs, p)
    ensures names[0] in ChildNames(fs, p) && p + [names[0]] in fs
    ensures Subtrees(fs, root, p, names)
            == (if Hidden(names[0]) then [] else [Tree(fs, root, p + [names[0]])]) + Subtrees(fs, root, p, names[1..])
  {
    ChildIn(fs, p, names[0]);
  }

  lemma ChildIn(fs: Fs, p: Path, n: string)
    requires n in ChildNames(fs, p)
    ensures p + [n] in fs && p < p + [n]
  {
    var q :| q in fs.Keys && |q| == |p| + 1 && p <= q && q[|p|] == n;
    assert q == p + [n];
  }

  /** `list_files`: the guard, existence, the directory check, then the tree, which fails with
    * `relative_to`'s error for a directory the guard let through beside the workspace. */
  function List(fs: Fs, root: Path, path: string): Reply
  {
    match Resolve(root, path)
    case None => Failure(Denied(path))
    case Some(p) =>
      if p !in fs then Failure(DirNotFound(path))
      else if fs[p].File? then Failure(NotADirectory(path))
      else if !(root <= p) then Failure(NotRelative(p, root))
      else Listing(Tree(fs, root, p))
  }

  // ---------------------------------------------------------------------------
  // Properties of the operations

  /** What the guard hands to the operations: a path of plain components, never `/` itself. */
  lemma ResolvedShape(root: Path, s: string)
    requires PlainPath(root) && |root| > 0 && Resolve(root, s).Some?
    ensures PlainPath(Resolve(root, s).value) && Resolve(root, s).value != []
    ensures PlainPath(Parent(Resolve(root, s).value))
  {
    ResolveSpec(root, s);
  }

  /** Writing keeps the disk well formed. */
  lemma WriteKeepsWellFormed(fs: Fs, root: Path, maxSize: nat, path: string, content: string)
    requires WellFormed(fs) && PlainPath(root) && |root| > 0
    ensures WellFormed(Write(fs, root, maxSize, path, content).1)
  {
    if Resolve(root, path).Some? {
      var p := Resolve(root, path).value;
      ResolvedShape(root, path);
      MkdirsSpec(fs, Parent(p));
    }
  }

  /** The same holds when arguments are missing. */
  lemma WriteArgsKeepsWellFormed(fs: Fs, root: Path, maxSize: nat, path: Option<string>, content: Option<string>)
    requires WellFormed(fs) && PlainPath(root) && |root| > 0
    ensures WellFormed(WriteArgs(fs, root, maxSize, path, content).1)
  {
    if path.Some? {
      if content.Some? {
        WriteKeepsWellFormed(fs, root, maxSize, path.value, content.value);
      } else if Resolve(root, path.value).Some? {
        ResolvedShape(root, path.value);
        MkdirsSpec(fs, Parent(Resolve(root, path.value).value));
      }
    }
  }

  /** Whatever the outcome, a write changes no existing entry but its target, and every entry it adds
    * is the target or a directory on the way to it. */
  lemma WriteFrame(fs: Fs, root: Path, maxSize: nat, path: string, content: string)
    requires WellFormed(fs) && PlainPath(root) && |root| > 0
    ensures var fs1 := Write(fs, root, maxSize, path, content).1;
            && (forall k :: k in fs ==> k in fs1)
            && (Resolve(root, path).None? ==> fs1 == fs)
            && (Resolve(root, path).Some? ==>
                  var p := Resolve(root, path).value;
                  && (forall k :: k in fs && k != p ==> fs1[k] == fs[k])
                  && (forall k :: k in fs1 && k !in fs && k != p ==> k < p && fs1[k] == Dir(true)))
  {
    if Resolve(root, path).Some? {
      var p := Resolve(root, path).value;
      ResolvedShape(root, path);
      MkdirsSpec(fs, Parent(p));
    }
  }

  /** A successful write reports the content's length in characters, within the byte limit, and a
    * later read of the same path returns the content as text mode reads it back. */
  lemma WriteThenRead(fs: Fs, root: Path, maxSize: nat, path: string, content: string)
    requires Write(fs, root, maxSize, path, content).0.Success()
    ensures var (r, fs1) := Write(fs, root, maxSize, path, content);
            && r == Written(path, |content|)
            && Utf8Length(content) <= maxSize
            && Read(fs1, root, path) == Content(path, Universal(content))
  {
    var p := Resolve(root, path).value;
    var fs1 := Mkdirs(fs, Parent(p)).value;
    assert Write(fs, root, maxSize, path, content) == (Written(path, |content|), fs1[p := File(Decodes(content))]);
    WrittenRead(fs1[p := File(Decodes(content))], root, path, p, content);
  }

  lemma WrittenRead(fs: Fs, root: Path, path: string, p: Path, content: string)
    requires Resolve(root, path) == Some(p) && p in fs && fs[p] == File(Decodes(content))
    ensures Read(fs, root, path) == Content(path, Universal(content))
  {
  }

  /** Content without carriage returns reads back exactly. */
  lemma WriteThenReadExact(fs: Fs, root: Path, maxSize: nat, path: string, content: string)
    requires Write(fs, root, maxSize, path, content).0.Success() && '\r' !in content
    ensures Read(Write(fs, root, maxSize, path, content).1, root, path) == Content(path, content)
  {
    WriteThenRead(fs, root, maxSize, path, content);
    UniversalIdentity(content);
  }

  /** Content over the byte limit is refused and the target entry is left as it was, although the
    * missing parent directories have been created. */
  lemma WriteTooLarge(fs: Fs, root: Path, maxSize: nat, path: string, content: string)
    requires WellFormed(fs) && PlainPath(root) && |root| > 0
    requires Utf8Length(content) > maxSize
    ensures var (r, fs1) := Write(fs, root, maxSize, path, content);
            && !r.Success()
            && (forall k :: k in fs ==> k in fs1 && fs1[k] == fs[k])
            && (forall k :: k in fs1 && k !in fs ==> fs1[k] == Dir(true))
            && (r == Failure(TooLarge(maxSize)) ==> Parent(Resolve(root, path).value) in fs1)
  {
    if Resolve(root, path).Some? {
      var p := Resolve(root, path).value;
      ResolvedShape(root, path);
      MkdirsSpec(fs, Parent(p));
    }
  }

  /** The two reported sizes differ: one non-ASCII character is two bytes but counts as one. */
  lemma SizeCountsCharacters()
    ensures Utf8Length("é") == 2 && |"é"| == 1
  {
  }

  /** `read_file` succeeds exactly on the regular files the guard accepts whose bytes are UTF-8; a
    * refused path, a missing one, a directory and undecodable bytes each fail with their own
    * message, in that order. */
  lemma ReadSucceedsIff(fs: Fs, root: Path, path: string)
    ensures Read(fs, root, path).Success() <==>
              Resolve(root, path).Some? && Resolve(root, path).value in fs
              && fs[Resolve(root, path).value].File? && fs[Resolve(root, path).value].bytes.Decodes?
    ensures Resolve(root, path).None? ==> Read(fs, root, path) == Failure(Denied(path))
    ensures Resolve(root, path).Some? && Resolve(root, path).value !in fs ==>
              Read(fs, root, path) == Failure(NotFound(path))
    ensures Resolve(root, path).Some? && Resolve(root, path).value in fs && fs[Resolve(root, path).value].Dir? ==>
              Read(fs, root, path) == Failure(NotAFile(path))
    ensures Resolve(root, path).Some? && Resolve(root, path).value in fs
            && fs[Resolve(root, path).value].File? && fs[Resolve(root, path).value].bytes.Undecodable? ==>
              Read(fs, root, path) == Failure(DecodeFailed(fs[Resolve(root, path).value].bytes.reason))
  {
  }

  /** `list_files` succeeds exactly on the directories the guard accepts that lie under the root; a
    * refused path, a missing one, a file and a directory beside the root each fail with their own
    * message, in that order. */
  lemma ListSucceedsIff(fs: Fs, root: Path, path: string)
    ensures List(fs, root, path).Success() <==>
              Resolve(root, path).Some? && Resolve(root, path).value in fs
              && fs[Resolve(root, path).value].Dir? && root <= Resolve(root, path).value
    ensures Resolve(root, path).None? ==> List(fs, root, path) == Failure(Denied(path))
    ensures Resolve(root, path).Some? && Resolve(root, path).value !in fs ==>
              List(fs, root, path) == Failure(DirNotFound(path))
    ensures Resolve(root, path).Some? && Resolve(root, path).value in fs && fs[Resolve(root, path).value].File? ==>
              List(fs, root, path) == Failure(NotADirectory(path))
  {
  }

  /** `delete_file` succeeds exactly on the entries the guard accepts; a refused or missing path fails
    * with its own message and leaves the disk as it was. */
  lemma DeleteSucceedsIff(fs: Fs, root: Path, path: string)
    ensures Delete(fs, root, path).0.Success() <==> Resolve(root, path).Some? && Resolve(root, path).value in fs
    ensures Resolve(root, path).None? ==> Delete(fs, root, path) == (Failure(Denied(path)), fs)
    ensures Resolve(root, path).Some? && Resolve(root, path).value !in fs ==>
              Delete(fs, root, path) == (Failure(NotFound(path)), fs)
  {
  }

  /** Removing a subtree other than `/` from a well-formed disk leaves it well formed: every entry
    * outside the subtree stays as it was, with the parent of the removed path, and nothing under the
    * removed path is left. */
  lemma RemoveTreeSpec(fs: Fs, p: Path)
    requires WellFormed(fs) && p != []
    ensures var r := RemoveTree(fs, p);
            && WellFormed(r)
            && (forall k :: k in fs && !(p <= k) ==> k in r && r[k] == fs[k])
            && (forall k :: k in r ==> !(p <= k))
            && (p in fs ==> Parent(p) in r && r[Parent(p)].Dir?)
  {
    if p in fs {
      assert !(p <= Parent(p));
    }
  }

  /** Deleting keeps the disk well formed and removes the target with everything below it. */
  lemma DeleteKeepsWellFormed(fs: Fs, root: Path, path: string)
    requires WellFormed(fs) && PlainPath(root) && |root| > 0
    ensures WellFormed(Delete(fs, root, path).1)
  {
    if Resolve(root, path).Some? {
      ResolvedShape(root, path);
      RemoveTreeSpec(fs, Resolve(root, path).value);
    }
  }

  /** After a successful delete, the path and everything under it are gone. */
  lemma DeleteThenRead(fs: Fs, root: Path, path: string)
    requires Delete(fs, root, path).0.Success()
    ensures var fs1 := Delete(fs, root, path).1;
            && Read(fs1, root, path) == Failure(NotFound(path))
            && forall k :: k in fs1 ==> !(Resolve(root, path).value <= k)
  {
  }

  /** "." names the workspace root itself: the guard accepts it and deleting it removes the whole
    * workspace. */
  lemma DeleteDot(fs: Fs, root: Path)
    requires PlainPath(root) && |root| > 0 && root in fs
    ensures Delete(fs, root, ".") == (Deleted("."), RemoveTree(fs, root))
    ensures forall k :: k in RemoveTree(fs, root) ==> !(root <= k)
  {
    ResolveDot(root);
  }

  /** A write through a sibling of the workspace lands outside it: with the root
    * `/tmp/manus-workspaces/s1`, "../s12/x" writes `/tmp/manus-workspaces/s12/x`. */
  lemma WriteEscapes(fs: Fs, root: Path, path: string, content: string, maxSize: nat, target: Path)
    requires root == ["tmp", "manus-workspaces", "s1"] && path == "../s12/x"
    requires target == ["tmp", "manus-workspaces", "s12", "x"]
    requires Write(fs, root, maxSize, path, content).0.Success()
    ensures target in Write(fs, root, maxSize, path, content).1
    ensures Write(fs, root, maxSize, path, content).1[target] == File(Decodes(content))
    ensures !(root <= target)
  {
    SiblingEscapes(root, path, target);
    WrittenAt(fs, root, maxSize, path, content, target);
  }

  /** A successful write stores the content at the resolved path. */
  lemma WrittenAt(fs: Fs, root: Path, maxSize: nat, path: string, content: string, p: Path)
    requires Resolve(root, path) == Some(p) && Write(fs, root, maxSize, path, content).0.Success()
    ensures p in Write(fs, root, maxSize, path, content).1
    ensures Write(fs, root, maxSize, path, content).1[p] == File(Decodes(content))
  {
  }

  /** A directory the guard lets through beside the workspace is refused by the listing with
    * `relative_to`'s error. */
  lemma ListCollision(fs: Fs, root: Path, path: string, n: Path)
    requires PlainPath(root) && |root| > 0
    requires Normalize(Join(root, path)) == n && PrefixCollision(root, n)
    requires n in fs && fs[n].Dir?
    ensures List(fs, root, path) == Failure(NotRelative(n, root))
  {
    ResolveCollides(root, path, n);
  }

  // ---------------------------------------------------------------------------
  // Properties of the listing tree

  function Names(ns: seq<Node>): (r: seq<string>)
    ensures |r| == |ns| && forall i :: 0 <= i < |ns| ==> r[i] == ns[i].name
  {
    if ns == [] then [] else [ns[0].name] + Names(ns[1..])
  }

  /** The names a listing keeps, in their order. */
  function Visible(names: seq<string>): seq<string>
  {
    if names == [] then []
    else if Hidden(names[0]) then Visible(names[1..])
    else [names[0]] + Visible(names[1..])
  }

  lemma {:induction false} VisibleSorted(names: seq<string>)
    requires StrictlySorted(names)
    ensures StrictlySorted(Visible(names))
    ensures forall x :: x in Visible(names) <==> x in names && !Hidden(x)
  {
    if names != [] {
      var rest := names[1..];
      VisibleSorted(rest);
      assert forall x :: x in names <==> x == names[0] || x in rest;
      if !Hidden(names[0]) {
        var v := [names[0]] + Visible(rest);
        forall i, j | 0 <= i < j < |v| ensures Less(v[i], v[j]) {
          if i == 0 {
            assert v[j] in rest;
            var k :| 0 <= k < |rest| && rest[k] == v[j];
            assert names[k + 1] == v[j];
          } else {
            assert v[i] == Visible(rest)[i - 1] && v[j] == Visible(rest)[j - 1];
          }
        }
      }
    }
  }

  lemma {:induction false} SubtreesNames(fs: Fs, root: Path, p: Path, names: seq<string>)
    requires p in fs && root <= p
    requires forall n :: n in names ==> n in ChildNames(fs, p)
    ensures Names(Subtrees(fs, root, p, names)) == Visible(names)
    decreases |names|
  {
    if names != [] {
      SubtreesNames(fs, root, p, names[1..]);
      if !Hidden(names[0]) {
        ChildIn(fs, p, names[0]);
        assert LastName(p + [names[0]]) == names[0];
      }
    }
  }

  /** `build_tree` on a directory: its children are exactly the non-hidden entries, by name, in
    * strictly ascending order; `Unset` stands for an empty list and for a directory that cannot be
    * listed. A file is a leaf. */
  lemma TreeChildren(fs: Fs, root: Path, p: Path)
    requires p in fs && root <= p
    ensures var t := Tree(fs, root, p);
            && t.name == LastName(p)
            && (fs[p].File? ==> t.kind == FileNode && t.children == Unset)
            && (fs[p].Dir? ==> t.kind == DirectoryNode)
            && (fs[p] == Dir(false) ==> t.children == Unset)
            && (fs[p] == Dir(true) ==>
                  && (t.children == Unset <==> forall n :: n in ChildNames(fs, p) ==> Hidden(n))
                  && (t.children.Nodes? ==>
                        && t.children.list != []
                        && StrictlySorted(Names(t.children.list))
                        && forall n :: n in Names(t.children.list) <==> n in ChildNames(fs, p) && !Hidden(n)))
  {
    if fs[p] == Dir(true) {
      var names := SortedSet(ChildNames(fs, p));
      SubtreesNames(fs, root, p, names);
      VisibleSorted(names);
      var kids := Subtrees(fs, root, p, names);
      if kids == [] {
        assert Visible(names) == [];
      } else {
        assert kids[0].name in Names(kids);
      }
    }
  }

  // ---------------------------------------------------------------------------
  // The store itself

  lemma PrefixIsDir(fs: Fs, k: Path, a: Path)
    requires WellFormed(fs) && k in fs && a < k
    ensures a in fs && fs[a].Dir?
  {
    AncestorsAreDirs(fs, k);
    assert k[..|a|] == a;
  }

  /** A regular file has nothing below it. */
  lemma FileIsLeaf(fs: Fs, p: Path)
    requires WellFormed(fs) && p in fs && fs[p].File?
    ensures RemoveTree(fs, p) == fs - {p}
  {
    forall k | k in fs && p <= k ensures k == p {
      if p < k {
        PrefixIsDir(fs, k, p);
      }
    }
  }

  /** The machine's disk, shared by the file store and the command sandbox. */
  class Disk {
    var fs: Fs

    constructor(fs: Fs)
      ensures this.fs == fs
    {
      this.fs := fs;
    }
  }

  /** `FileManager`: the file operations of one session, confined (by the string-prefix guard) to
    * `<workspace_dir>/<session_id>`. */
  class FileManager {
    const disk: Disk
    const root: Path
    const maxFileSize: nat

    ghost predicate Valid()
      reads this, disk
    {
      WellFormed(disk.fs) && PlainPath(root) && |root| > 0
    }

    /** Creating the store creates its workspace directory. */
    constructor(disk: Disk, workspaceDir: Path, sessionId: string, maxFileSize: nat)
      requires WellFormed(disk.fs) && PlainPath(workspaceDir) && PlainSegment(sessionId)
      requires Mkdirs(disk.fs, workspaceDir + [sessionId]).Ok?
      modifies disk
      ensures Valid() && this.disk == disk && this.maxFileSize == maxFileSize
      ensures root == workspaceDir + [sessionId]
      ensures disk.fs == Mkdirs(old(disk.fs), root).value && root in disk.fs && disk.fs[root].Dir?
    {
      this.disk := disk;
      this.root := workspaceDir + [sessionId];
      this.maxFileSize := maxFileSize;
      new;
      MkdirsSpec(disk.fs, root);
      disk.fs := Mkdirs(disk.fs, root).value;
    }

    method WriteFile(path: string, content: string) returns (r: Reply)
      requires Valid()
      modifies disk
      ensures Valid()
      ensures (r, disk.fs) == Write(old(disk.fs), root, maxFileSize, path, content)
    {
      ghost var fs0 := disk.fs;
      WriteKeepsWellFormed(fs0, root, maxFileSize, path, content);
      var resolved := Resolve(root, path);
      if resolved.None? {
        return Failure(Denied(path));
      }
      var p := resolved.value;
      var made := Mkdirs(disk.fs, Parent(p));
      if made.Err? {
        return Failure(Os(made.error));
      }
      disk.fs := made.value;
      if Utf8Length(content) > maxFileSize {
        return Failure(TooLarge(maxFileSize));
      }
      if p in disk.fs && disk.fs[p].Dir? {
        return Failure(Os(IsADirectory(p)));
      }
      disk.fs := disk.fs[p := File(Decodes(content))];
      r := Written(path, |content|);
    }

    /** `write_file` called without content: the guard and the parent directories, then the failure. */
    method WriteFileNoContent(path: string) returns (r: Reply)
      requires Valid()
      modifies disk
      ensures Valid()
      ensures (r, disk.fs) == WriteArgs(old(disk.fs), root, maxFileSize, Some(path), None)
    {
      WriteArgsKeepsWellFormed(disk.fs, root, maxFileSize, Some(path), None);
      var resolved := Resolve(root, path);
      if resolved.None? {
        return Failure(Denied(path));
      }
      var made := Mkdirs(disk.fs, Parent(resolved.value));
      if made.Err? {
        return Failure(Os(made.error));
      }
      disk.fs := made.value;
      r := Failure(NoneContent);
    }

    method ReadFile(path: string) returns (r: Reply)
      requires Valid()
      ensures r == Read(disk.fs, root, path)
    {
      var resolved := Resolve(root, path);
      if resolved.None? {
        return Failure(Denied(path));
      }
      var p := resolved.value;
      if p !in disk.fs {
        return Failure(NotFound(path));
      }
      if !disk.fs[p].File? {
        return Failure(NotAFile(path));
      }
      match disk.fs[p].bytes {
        case Undecodable(reason) => r := Failure(DecodeFailed(reason));
        case Decodes(text) => r := Content(path, Universal(text));
      }
    }

    method DeleteFile(path: string) returns (r: Reply)
      requires Valid()
      modifies disk
      ensures Valid()
      ensures (r, disk.fs) == Delete(old(disk.fs), root, path)
    {
      DeleteKeepsWellFormed(disk.fs, root, path);
      var resolved := Resolve(root, path);
      if resolved.None? {
        return Failure(Denied(path));
      }
      var p := resolved.value;
      if p !in disk.fs {
        return Failure(NotFound(path));
      }
      if disk.fs[p].File? {
        FileIsLeaf(disk.fs, p);
        disk.fs := disk.fs - {p};
      } else {
        disk.fs := RemoveTree(disk.fs, p);
      }
      r := Deleted(path);
    }

    method ListFiles(path: string) returns (r: Reply)
      requires Valid()
      ensures r == List(disk.fs, root, path)
    {
      var resolved := Resolve(root, path);
      if resolved.None? {
        return Failure(Denied(path));
      }
      var p := resolved.value;
      if p !in disk.fs {
        return Failure(DirNotFound(path));
      }
      if !disk.fs[p].Dir? {
        return Failure(NotADirectory(path));
      }
      if !(root <= p) {
        return Failure(NotRelative(p, root));
      }
      var tree := BuildTree(p);
      r := Listing(tree);
    }

    /** `build_tree`: the recursion over the sorted entries, appending one child at a time. */
    method BuildTree(p: Path) returns (node: Node)
      requires p in disk.fs && root <= p
      ensures node == Tree(disk.fs, root, p)
      decreases |Desc(disk.fs, p)|
    {
      var fs := disk.fs;
      var here := RelativeText(p[|root|..]);
      if fs[p].File? {
        TreeShape(fs, root, p);
        return Node(LastName(p), here, FileNode, Unset);
      }
      var children: seq<Node> := [];
      if fs[p].listable {
        var names := SortedSet(ChildNames(fs, p));
        assert forall n :: n in names ==> n in ChildNames(fs, p);
        var i := 0;
        while i < |names|
          invariant 0 <= i <= |names|
          invariant children + Subtrees(fs, root, p, names[i..]) == Subtrees(fs, root, p, names)
        {
          var name := names[i];
          SubtreesStep(fs, root, p, names[i..]);
          assert names[i..][1..] == names[i + 1..];
          if !Hidden(name) {
            ChildIn(fs, p, name);
            DescShrinks(fs, p, p + [name]);
            var child := BuildTree(p + [name]);
            children := children + [child];
          }
          i := i + 1;
        }
        assert names[i..] == [];
        assert children == Subtrees(fs, root, p, names);
      }
      TreeShape(fs, root, p);
      assert children == if fs[p].listable then Subtrees(fs, root, p, SortedSet(ChildNames(fs, p))) else [];
      node := Node(LastName(p), here, DirectoryNode, if children == [] then Unset else Nodes(children));
    }
  }
}
