/** Where the snapshot store keeps its files, and how the API server reads a listing of them back. */
module SnapshotPaths {
  import opened Wrappers
  import opened Cluster

  // ---- Paths ------------------------------------------------------------------

  /** The four files of one tenant and workload. */
  datatype Slot = Archive | ArchiveTmp | Checksum | ChecksumTmp

  const ROOT := "/snapshots/"
  const SUFFIX := ".tar.gz"

  function Ending(slot: Slot): string {
    match slot
    case Archive => SUFFIX
    case ArchiveTmp => SUFFIX + ".tmp"
    case Checksum => SUFFIX + ".sha256"
    case ChecksumTmp => SUFFIX + ".sha256" + ".tmp"
  }

  function PathOf(k: Key, slot: Slot): string {
    ROOT + k.tenant + "/" + k.workload + Ending(slot)
  }

  function SnapshotPath(k: Key): string { PathOf(k, Archive) }

  lemma SameTail(a: string, b: string, x: string, y: string)
    requires a + x == b + y && |x| <= |y|
    ensures x == y[|y| - |x|..]
    ensures |x| == |y| ==> a == b
  {
    var s := a + x;
    assert s[|s| - |x|..] == x && s[|s| - |y|..] == y;
    assert s[..|s| - |x|] == a && s[..|s| - |y|] == b;
  }

  /** Endings tell the slots apart: none is a proper tail of another. */
  lemma EndingsApart(r: Slot, s: Slot)
    requires |Ending(r)| <= |Ending(s)| && Ending(r) == Ending(s)[|Ending(s)| - |Ending(r)|..]
    ensures r == s
  {
    EndingMarks(r);
    EndingMarks(s);
    hide Ending;
    TailChar(Ending(r), Ending(s), 1);
    TailChar(Ending(r), Ending(s), 5);
  }

  lemma TailChar(e: string, f: string, n: nat)
    requires |e| <= |f| && e == f[|f| - |e|..] && 0 < n <= |e|
    ensures e[|e| - n] == f[|f| - n]
  {
  }

  /** Two characters that tell the endings apart. */
  lemma EndingMarks(slot: Slot)
    ensures var e := Ending(slot);
            && |e| >= 5
            && (slot == Archive ==> e[|e| - 1] == 'z')
            && (slot == Checksum ==> e[|e| - 1] == '6')
            && (slot == ArchiveTmp ==> e[|e| - 1] == 'p' && e[|e| - 5] == 'z')
            && (slot == ChecksumTmp ==> e[|e| - 1] == 'p' && e[|e| - 5] == '6')
  {
    match slot
    case Archive => assert Ending(slot) == ".tar.gz";
    case ArchiveTmp => assert Ending(slot) == ".tar.gz.tmp";
    case Checksum => assert Ending(slot) == ".tar.gz.sha256";
    case ChecksumTmp => assert Ending(slot) == ".tar.gz.sha256.tmp";
  }

  /** Two paths are the same file exactly when the slots agree and tenant/workload reads the same. */
  lemma PathsCollide(k: Key, r: Slot, l: Key, s: Slot)
    ensures PathOf(k, r) == PathOf(l, s) <==> r == s && k.tenant + "/" + k.workload == l.tenant + "/" + l.workload
  {
    hide PathOf, Ending, Stem;
    PathParts(k, r);
    PathParts(l, s);
    StemsEqual(k, l);
    if PathOf(k, r) == PathOf(l, s) {
      if |Ending(r)| <= |Ending(s)| {
        SameTail(Stem(k), Stem(l), Ending(r), Ending(s));
        EndingsApart(r, s);
      } else {
        SameTail(Stem(l), Stem(k), Ending(s), Ending(r));
        EndingsApart(s, r);
      }
    }
  }

  /** A path without its ending. */
  function Stem(k: Key): string { ROOT + (k.tenant + "/" + k.workload) }

  lemma Assoc(a: string, b: string, c: string)
    ensures a + (b + c) == a + b + c
  {
  }

  lemma SameHead(p: string, a: string, b: string)
    ensures p + a == p + b <==> a == b
  {
    assert (p + a)[|p|..] == a && (p + b)[|p|..] == b;
  }

  lemma StemsEqual(k: Key, l: Key)
    ensures Stem(k) == Stem(l) <==> k.tenant + "/" + k.workload == l.tenant + "/" + l.workload
  {
    SameHead(ROOT, k.tenant + "/" + k.workload, l.tenant + "/" + l.workload);
  }

  lemma PathParts(k: Key, slot: Slot)
    ensures PathOf(k, slot) == Stem(k) + Ending(slot)
  {
    Assoc(ROOT, k.tenant + "/", k.workload);
    Assoc(ROOT, k.tenant, "/");
  }

  lemma FirstSlash(t: string, w: string, u: string, v: string)
    requires t + "/" + w == u + "/" + v && '/' !in t && '/' !in u
    ensures t == u && w == v
  {
    CutAtFirst(t, w);
    CutAtFirst(u, v);
  }

  /** Tenants without a slash never share a file, whatever their workloads are called. */
  lemma PathsApart(k: Key, r: Slot, l: Key, s: Slot)
    requires '/' !in k.tenant && '/' !in l.tenant && PathOf(k, r) == PathOf(l, s)
    ensures k == l && r == s
  {
    PathsCollide(k, r, l, s);
    FirstSlash(k.tenant, k.workload, l.tenant, l.workload);
  }

  lemma CutHere(s: string, i: nat)
    requires i < |s| && s[i] == '/'
    ensures s == s[..i] + "/" + s[i + 1..]
  {
    assert s[..i] + "/" + s[i + 1..] == s[..i] + [s[i]] + s[i + 1..];
  }

  /** A tenant with a slash always shares its files with another key. */
  lemma SlashCollides(k: Key) returns (l: Key)
    requires '/' in k.tenant
    ensures l != k && '/' !in l.tenant && forall slot :: PathOf(l, slot) == PathOf(k, slot)
  {
    var i := 0;
    while k.tenant[i] != '/'
      invariant i < |k.tenant| && '/' in k.tenant[i..]
      invariant '/' !in k.tenant[..i]
      decreases |k.tenant| - i
    {
      assert k.tenant[i..] == [k.tenant[i]] + k.tenant[i + 1..];
      assert k.tenant[..i + 1] == k.tenant[..i] + [k.tenant[i]];
      i := i + 1;
    }
    l := Key(k.tenant[..i], k.tenant[i + 1..] + "/" + k.workload);
    CutHere(k.tenant, i);
    Assoc(l.tenant + "/", k.tenant[i + 1..], "/" + k.workload);
    assert k.tenant[i + 1..] + "/" + k.workload == k.tenant[i + 1..] + ("/" + k.workload);
    assert k.tenant + "/" + k.workload == k.tenant + ("/" + k.workload);
    forall slot
      ensures PathOf(l, slot) == PathOf(k, slot)
    {
      PathsCollide(l, slot, k, slot);
    }
  }

  // ---- Go's string functions -----------------------------------------------------

  /** unicode.IsSpace */
  predicate IsSpace(c: char) {
    || c in {'\t', '\n', '\U{0B}', '\U{0C}', '\r', ' ', '\U{85}', '\U{A0}', '\U{1680}'}
    || '\U{2000}' <= c <= '\U{200A}'
    || c in {'\U{2028}', '\U{2029}', '\U{202F}', '\U{205F}', '\U{3000}'}
  }

  function TrimLeft(s: string): string {
    if s != "" && IsSpace(s[0]) then TrimLeft(s[1..]) else s
  }

  function TrimRight(s: string): string {
    if s != "" && IsSpace(s[|s| - 1]) then TrimRight(s[..|s| - 1]) else s
  }

  /** strings.TrimSpace */
  function TrimSpace(s: string): string { TrimRight(TrimLeft(s)) }

  /** strings.Split by a single character */
  function Split(s: string, sep: char): (parts: seq<string>)
    ensures |parts| >= 1
  {
    if s == "" then [""]
    else
      var rest := Split(s[1..], sep);
      if s[0] == sep then [""] + rest else [[s[0]] + rest[0]] + rest[1..]
  }

  /** strings.SplitN into two: the parts before and after the first separator, if there is one. */
  function Cut(s: string, sep: char): Option<(string, string)> {
    if s == "" then None
    else if s[0] == sep then Some(("", s[1..]))
    else
      match Cut(s[1..], sep)
      case None => None
      case Some(parts) => Some(([s[0]] + parts.0, parts.1))
  }

  function TrimPrefix(s: string, prefix: string): string {
    if prefix <= s then s[|prefix|..] else s
  }

  predicate HasSuffix(s: string, suffix: string) {
    |s| >= |suffix| && s[|s| - |suffix|..] == suffix
  }

  function TrimSuffix(s: string, suffix: string): string {
    if HasSuffix(s, suffix) then s[..|s| - |suffix|] else s
  }

  function TrimSlashes(s: string): string {
    if s != "" && s[|s| - 1] == '/' then TrimSlashes(s[..|s| - 1]) else s
  }

  function AfterLastSlash(s: string): string {
    if s == "" || s[|s| - 1] == '/' then "" else AfterLastSlash(s[..|s| - 1]) + [s[|s| - 1]]
  }

  /** filepath.Base */
  function Base(path: string): string {
    if path == "" then "."
    else if TrimSlashes(path) == "" then "/"
    else AfterLastSlash(TrimSlashes(path))
  }

  // ---- Reading a listing -------------------------------------------------------------

  datatype Entry = Entry(key: Key, path: string)

  /** One line of the listing; None for a line that is skipped. */
  function ParseLine(raw: string): Option<Entry> {
    var line := TrimSpace(raw);
    if line == "" then None
    else
      match Cut(TrimPrefix(line, ROOT), '/')
      case None => None
      case Some(parts) => Some(Entry(Key(parts.0, TrimSuffix(Base(parts.1), SUFFIX)), line))
  }

  function ParseLines(lines: seq<string>): seq<Entry> {
    if lines == [] then []
    else
      var before := ParseLines(lines[..|lines| - 1]);
      match ParseLine(lines[|lines| - 1])
      case None => before
      case Some(e) => before + [e]
  }

  /** discoverSnapshots, given what find printed */
  method DiscoverSnapshots(stdout: string) returns (entries: seq<Entry>)
    ensures entries == ParseLines(Split(TrimSpace(stdout), '\n'))
  {
    var lines := Split(TrimSpace(stdout), '\n');
    entries := [];
    for i := 0 to |lines|
      invariant entries == ParseLines(lines[..i])
    {
      assert lines[..i + 1][..i] == lines[..i];
      var line := TrimSpace(lines[i]);
      if line != "" {
        var rel := TrimPrefix(line, ROOT);
        var parts := Cut(rel, '/');
        if parts.Some? {
          var workload := TrimSuffix(Base(parts.value.1), SUFFIX);
          entries := entries + [Entry(Key(parts.value.0, workload), line)];
        }
      }
    }
    assert lines[..|lines|] == lines;
  }

  /** Names that can be told apart in a listing. */
  predicate Plain(k: Key) {
    && '/' !in k.tenant && '/' !in k.workload
    && '\n' !in k.tenant && '\n' !in k.workload
  }

  /** What find prints for these archives, one path a line. */
  function Listing(keys: seq<Key>): string {
    if keys == [] then "" else SnapshotPath(keys[0]) + "\n" + Listing(keys[1..])
  }

  lemma {:induction false} CutAtFirst(t: string, rest: string)
    requires '/' !in t
    ensures Cut(t + "/" + rest, '/') == Some((t, rest))
  {
    var s := t + "/" + rest;
    if t == "" {
      assert s[1..] == rest;
    } else {
      CutAtFirst(t[1..], rest);
      assert s[1..] == t[1..] + "/" + rest && s[0] == t[0];
      assert [t[0]] + t[1..] == t;
    }
  }

  lemma {:induction false} NoSlashBase(s: string)
    requires '/' !in s
    ensures AfterLastSlash(s) == s && TrimSlashes(s) == s
  {
    if s != "" {
      assert s[|s| - 1] in s;
      NoSlashBase(s[..|s| - 1]);
      assert s[..|s| - 1] + [s[|s| - 1]] == s;
    }
  }

  /** Neither end of a path is white space. */
  lemma PathEnds(k: Key)
    ensures var p := SnapshotPath(k); p[0] == '/' && p[|p| - 1] == 'z' && TrimSpace(p) == p
  {
  }

  lemma PlainPath(k: Key)
    requires Plain(k)
    ensures '\n' !in SnapshotPath(k)
  {
    var p := SnapshotPath(k);
    assert p == ROOT + k.tenant + "/" + k.workload + SUFFIX;
  }

  lemma {:induction false} CutHasNone(s: string, sep: char)
    ensures Cut(s, sep).Some? ==> sep !in Cut(s, sep).value.0
  {
    if s != "" {
      CutHasNone(s[1..], sep);
    }
  }

  lemma {:induction false} LastPartHasNone(s: string)
    ensures '/' !in AfterLastSlash(s)
  {
    if s != "" {
      LastPartHasNone(s[..|s| - 1]);
    }
  }

  /** A path that does not end in a slash: its base has no slash. */
  lemma BaseHasNone(path: string)
    requires path != "" && path[|path| - 1] != '/'
    ensures '/' !in Base(path)
  {
    LastPartHasNone(path);
  }

  lemma ParseSplits(k: Key)
    ensures var rest := k.tenant + "/" + (k.workload + SUFFIX);
            TrimPrefix(SnapshotPath(k), ROOT) == rest && TrimSpace(SnapshotPath(k)) == SnapshotPath(k)
  {
    var p := SnapshotPath(k);
    PathEnds(k);
    assert p == ROOT + (k.tenant + "/" + (k.workload + SUFFIX));
    assert p[|ROOT|..] == k.tenant + "/" + (k.workload + SUFFIX);
  }

  lemma ParsePlain(k: Key)
    requires '/' !in k.tenant && '/' !in k.workload
    ensures ParseLine(SnapshotPath(k)) == Some(Entry(k, SnapshotPath(k)))
  {
    ParseSplits(k);
    var file := k.workload + SUFFIX;
    CutAtFirst(k.tenant, file);
    assert '/' !in file;
    NoSlashBase(file);
    assert file[|file| - |SUFFIX|..] == SUFFIX && file[..|file| - |SUFFIX|] == k.workload;
  }

  lemma ParseSlashed(k: Key)
    requires '/' in k.tenant || '/' in k.workload
    ensures ParseLine(SnapshotPath(k)) != Some(Entry(k, SnapshotPath(k)))
  {
    ParseSplits(k);
    var file := k.workload + SUFFIX;
    CutHasNone(k.tenant + "/" + file, '/');
    if '/' !in k.tenant {
      CutAtFirst(k.tenant, file);
      assert file[|file| - 1] == 'z';
      BaseHasNone(file);
    }
  }

  /** Parsing inverts snapshotPath exactly for names without a slash. */
  lemma ParseInverts(k: Key)
    ensures ParseLine(SnapshotPath(k)) == Some(Entry(k, SnapshotPath(k))) <==> '/' !in k.tenant && '/' !in k.workload
    ensures SnapshotPath(k) == "/snapshots/" + k.tenant + "/" + k.workload + ".tar.gz"
  {
    if '/' !in k.tenant && '/' !in k.workload {
      ParsePlain(k);
    } else {
      ParseSlashed(k);
    }
  }

  lemma {:induction false} SplitFirst(line: string, rest: string)
    requires '\n' !in line
    ensures Split(line + "\n" + rest, '\n') == [line] + Split(rest, '\n')
    ensures Split(line, '\n') == [line]
  {
    var s := line + "\n" + rest;
    if line == "" {
      assert s[1..] == rest;
    } else {
      SplitFirst(line[1..], rest);
      assert s[1..] == line[1..] + "\n" + rest && s[0] == line[0];
      assert [line[0]] + line[1..] == line;
    }
  }

  /** The lines of a listing of at least one archive, the final newline trimmed. */
  function Paths(keys: seq<Key>): seq<string> {
    seq(|keys|, i requires 0 <= i < |keys| => SnapshotPath(keys[i]))
  }

  /** The listing without its last newline. */
  function Chomped(keys: seq<Key>): string
    requires keys != []
  {
    if |keys| == 1 then SnapshotPath(keys[0]) else SnapshotPath(keys[0]) + "\n" + Chomped(keys[1..])
  }

  lemma {:induction false} ListingChomps(keys: seq<Key>)
    requires keys != []
    ensures Listing(keys) == Chomped(keys) + "\n"
    ensures var c := Chomped(keys); c != "" && c[0] == '/' && c[|c| - 1] == 'z'
  {
    PathEnds(keys[0]);
    if |keys| == 1 {
      assert Listing(keys[1..]) == "";
      assert Listing(keys) == SnapshotPath(keys[0]) + "\n";
    } else {
      ListingChomps(keys[1..]);
      assert Listing(keys) == SnapshotPath(keys[0]) + "\n" + (Chomped(keys[1..]) + "\n")
                           == (SnapshotPath(keys[0]) + "\n" + Chomped(keys[1..])) + "\n";
    }
  }

  lemma TrimListing(keys: seq<Key>)
    requires keys != []
    ensures TrimSpace(Listing(keys)) == Chomped(keys)
  {
    ListingChomps(keys);
    var l := Listing(keys);
    assert l[0] == '/' && TrimLeft(l) == l;
    assert TrimRight(Chomped(keys)) == Chomped(keys);
    assert l[|l| - 1] == '\n' && l[..|l| - 1] == Chomped(keys);
  }

  lemma {:induction false} SplitListing(keys: seq<Key>)
    requires keys != [] && forall k :: k in keys ==> Plain(k)
    ensures Split(Chomped(keys), '\n') == Paths(keys)
  {
    PlainPath(keys[0]);
    if |keys| == 1 {
      SplitFirst(SnapshotPath(keys[0]), "");
      assert Paths(keys) == [SnapshotPath(keys[0])];
    } else {
      SplitFirst(SnapshotPath(keys[0]), Chomped(keys[1..]));
      SplitListing(keys[1..]);
      assert Paths(keys) == [SnapshotPath(keys[0])] + Paths(keys[1..]);
    }
  }

  function Entries(keys: seq<Key>): seq<Entry> {
    seq(|keys|, i requires 0 <= i < |keys| => Entry(keys[i], SnapshotPath(keys[i])))
  }

  lemma {:induction false} ParsePaths(keys: seq<Key>)
    requires forall k :: k in keys ==> Plain(k)
    ensures ParseLines(Paths(keys)) == Entries(keys)
    decreases |keys|
  {
    hide PathOf, SnapshotPath, ParseLine;
    if keys != [] {
      var before, last := keys[..|keys| - 1], keys[|keys| - 1];
      assert Paths(keys)[..|keys| - 1] == Paths(before);
      ParsePaths(before);
      assert Plain(last);
      ParsePlain(last);
      assert Entries(keys) == Entries(before) + [Entry(last, SnapshotPath(last))];
    }
  }

  /** Reading back a listing gives exactly the keys listed, in order. */
  lemma ListingRoundTrip(keys: seq<Key>)
    requires forall k :: k in keys ==> Plain(k)
    ensures ParseLines(Split(TrimSpace(Listing(keys)), '\n')) == Entries(keys)
  {
    if keys == [] {
      assert ParseLine("") == None;
      assert ParseLines([""]) == [];
      assert Entries(keys) == [];
    } else {
      TrimListing(keys);
      SplitListing(keys);
      ParsePaths(keys);
    }
  }

  // ---- White space around a line ------------------------------------------------------

  predicate Padding(s: string) {
    forall c :: c in s ==> c in {' ', '\t', '\r', '\n'}
  }

  lemma {:induction false} PadLeft(pad: string, s: string)
    requires Padding(pad)
    ensures TrimLeft(pad + s) == TrimLeft(s)
  {
    if pad == "" {
      assert pad + s == s;
    } else {
      assert pad[0] in pad && (pad + s)[0] == pad[0] && (pad + s)[1..] == pad[1..] + s;
      assert forall c :: c in pad[1..] ==> c in pad;
      PadLeft(pad[1..], s);
    }
  }

  lemma {:induction false} PadRight(s: string, pad: string)
    requires Padding(pad)
    ensures TrimRight(s + pad) == TrimRight(s)
  {
    if pad == "" {
      assert s + pad == s;
    } else {
      var n := |pad| - 1;
      assert pad[n] in pad && (s + pad)[|s| + n] == pad[n] && (s + pad)[..|s| + n] == s + pad[..n];
      assert forall c :: c in pad[..n] ==> c in pad;
      PadRight(s, pad[..n]);
    }
  }

  /** A path reads the same with blanks, tabs and line ends around it. */
  lemma PaddedPathReads(left: string, k: Key, right: string)
    requires Padding(left) && Padding(right) && '/' !in k.tenant && '/' !in k.workload
    ensures ParseLine(left + SnapshotPath(k) + right) == Some(Entry(k, SnapshotPath(k)))
  {
    var p := SnapshotPath(k);
    PathEnds(k);
    PadLeft(left, p + right);
    assert left + p + right == left + (p + right);
    assert (p + right)[0] == '/' && TrimLeft(p + right) == p + right;
    PadRight(p, right);
    assert TrimLeft(p) == p;
    ParsePlain(k);
  }

  // ---- Listing a whole store ------------------------------------------------------------

  /** find -name "*.tar.gz" selects the archives and none of the other three files. */
  lemma OnlyArchivesMatch(k: Key, slot: Slot)
    ensures HasSuffix(PathOf(k, slot), ".tar.gz") <==> slot == Archive
  {
    var p := PathOf(k, slot);
    assert p == (ROOT + k.tenant + "/" + k.workload) + Ending(slot);
    if HasSuffix(p, SUFFIX) {
      var a := p[..|p| - |SUFFIX|];
      assert p == a + Ending(Archive);
      SameTail(a, ROOT + k.tenant + "/" + k.workload, Ending(Archive), Ending(slot));
      EndingsApart(Archive, slot);
    } else {
      assert p[|p| - |Ending(slot)|..] == Ending(slot);
    }
  }

  /** The store holds nothing but files of plain keys. */
  ghost predicate WellNamed(files: set<string>) {
    forall f :: f in files ==> exists k, slot :: Plain(k) && f == PathOf(k, slot)
  }

  /** find prints each file of the store that ends in .tar.gz, in some order. */
  ghost predicate Finds(files: set<string>, keys: seq<Key>) {
    && (forall k :: k in keys ==> Plain(k))
    && (forall f :: f in files && HasSuffix(f, SUFFIX) <==> exists i :: 0 <= i < |keys| && f == SnapshotPath(keys[i]))
  }

  /** Listing the store returns exactly the keys that have an archive. */
  lemma ListsTheStore(files: set<string>, keys: seq<Key>, k: Key)
    requires WellNamed(files) && Finds(files, keys) && Plain(k)
    ensures SnapshotPath(k) in files
            <==> Entry(k, SnapshotPath(k)) in ParseLines(Split(TrimSpace(Listing(keys)), '\n'))
  {
    ListingRoundTrip(keys);
    OnlyArchivesMatch(k, Archive);
    var es := Entries(keys);
    if SnapshotPath(k) in files {
      var i :| 0 <= i < |keys| && SnapshotPath(k) == SnapshotPath(keys[i]);
      assert Plain(keys[i]);
      PathsApart(k, Archive, keys[i], Archive);
      assert es[i] == Entry(k, SnapshotPath(k));
    }
    if Entry(k, SnapshotPath(k)) in es {
      var i :| 0 <= i < |es| && es[i] == Entry(k, SnapshotPath(k));
      assert SnapshotPath(k) == SnapshotPath(keys[i]);
      assert HasSuffix(SnapshotPath(k), SUFFIX);
    }
  }
}
