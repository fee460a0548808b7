/** The `WriteFile` handlers of one machine, any number of them interleaved,
    over a disk of directories, links and inodes: write to a temporary file next
    to the target, then rename it over the target. */
module AtomicWrite {
  import opened Wire

  /** A file by the components of its parent path and its own name; two targets are
      the same file exactly when these agree. An absolute path has the root for its
      first component, `./f` a dot; a bare name has the empty parent. */
  datatype Path = Path(dir: seq<string>, name: string)

  const TEMP_SUFFIX := ".crab_temp"

  function TempPath(p: Path): Path {
    Path(p.dir, p.name + TEMP_SUFFIX)
  }

  predicate IsTempName(p: Path) {
    |p.name| >= |TEMP_SUFFIX| && p.name[|p.name| - |TEMP_SUFFIX|..] == TEMP_SUFFIX
  }

  lemma TempPathIsInjective(p: Path, q: Path)
    ensures TempPath(p) == TempPath(q) <==> p == q
    ensures IsTempName(TempPath(p)) && TempPath(p) != p
  {
    if TempPath(p) == TempPath(q) {
      assert p.name == TempPath(p).name[..|p.name|];
      assert q.name == TempPath(q).name[..|q.name|];
    }
    assert |TempPath(p).name| > |p.name|;
  }

  /** Two targets are different files, and neither is the other's temporary one. */
  predicate Apart(p: Path, q: Path) {
    p != q && p != TempPath(q) && TempPath(p) != q
  }

  /** Different targets not named like temporary files are apart. */
  lemma OrdinaryNamesAreApart(p: Path, q: Path)
    requires p != q && !IsTempName(p) && !IsTempName(q)
    ensures Apart(p, q)
  {
    TempPathIsInjective(p, q);
    TempPathIsInjective(q, p);
  }

  // ----- the disk --------------------------------------------------------------

  /** `data` holds the contents of every inode ever made. */
  datatype Disk = Disk(dirs: set<seq<string>>, links: map<Path, nat>, data: seq<seq<byte>>)

  /** Every link leads somewhere, and no two to the same inode. */
  ghost predicate WellFormed(d: Disk) {
    && (forall p <- d.links :: d.links[p] < |d.data|)
    && (forall p <- d.links, q <- d.links :: d.links[p] == d.links[q] ==> p == q)
  }

  function Content(d: Disk, p: Path): Option<seq<byte>> {
    if p in d.links && d.links[p] < |d.data| then Some(d.data[d.links[p]]) else None
  }

  predicate IsDir(d: Disk, p: Path) {
    p.dir + [p.name] in d.dirs
  }

  /** All directories on the way to `dir`, and `dir` itself. */
  function Parents(dir: seq<string>): set<seq<string>> {
    set n | 1 <= n <= |dir| :: dir[..n]
  }

  /** No file is in the way of making `dir`. */
  predicate WayClear(d: Disk, dir: seq<string>) {
    forall n :: 0 <= n < |dir| ==> Path(dir[..n], dir[n]) !in d.links
  }

  /** A file is in the way exactly if it stands where a directory on the way, or the
      directory itself, would have to be. */
  lemma WayClearIs(d: Disk, dir: seq<string>)
    ensures WayClear(d, dir) <==> forall p <- d.links :: !(p.dir + [p.name] <= dir)
  {
    if exists p <- d.links :: p.dir + [p.name] <= dir {
      var p :| p in d.links && p.dir + [p.name] <= dir;
      assert dir[..|p.dir|] == p.dir && dir[|p.dir|] == (p.dir + [p.name])[|p.dir|];
      assert Path(dir[..|p.dir|], dir[|p.dir|]) == p;
    }
    if !WayClear(d, dir) {
      var n :| 0 <= n < |dir| && Path(dir[..n], dir[n]) in d.links;
      assert Path(dir[..n], dir[n]).dir + [dir[n]] == dir[..n + 1];
    }
  }

  /** `generate_temp_path`: the directories there are once the target's own has
      been made, if it may be, or was there. The empty parent of a bare name is
      nothing that can be made, and nothing that exists. */
  function WithDir(d: Disk, dir: seq<string>, mkdir: bool): Option<set<seq<string>>> {
    if dir == [] then None
    else if dir in d.dirs then Some(d.dirs)
    else if mkdir && WayClear(d, dir) then Some(d.dirs + Parents(dir))
    else None
  }

  /** The target's directory is had exactly if it is named and either is there, or may
      be made and no file lies on the way; only in the second case anything is made,
      and that is the directory and those on the way to it. */
  lemma WithDirIs(d: Disk, dir: seq<string>, mkdir: bool, q: seq<string>)
    ensures WithDir(d, dir, mkdir).Some? <==> dir != [] && (dir in d.dirs || (mkdir && WayClear(d, dir)))
    ensures WithDir(d, dir, mkdir).Some? ==>
              (q in WithDir(d, dir, mkdir).value <==> q in d.dirs || (dir !in d.dirs && q != [] && q <= dir))
  {
    if q != [] && q <= dir {
      assert q == dir[..|q|];
    }
  }

  /** `File::create`: an existing file keeps its inode and loses its bytes. */
  function Create(d: Disk, p: Path): Disk {
    if p in d.links && d.links[p] < |d.data| then d.(data := d.data[d.links[p] := []])
    else d.(links := d.links[p := |d.data|], data := d.data + [[]])
  }

  /** Bytes written through an open file at an offset; a gap reads as zeros. */
  function WriteAt(d: Disk, inode: nat, offset: nat, b: seq<byte>): Disk
    requires inode < |d.data|
  {
    var was := d.data[inode];
    var front := if offset <= |was| then was[..offset] else was + seq(offset - |was|, _ => 0);
    var back := if offset + |b| <= |was| then was[offset + |b|..] else [];
    d.(data := d.data[inode := front + b + back])
  }

  /** A write replaces the bytes in its place and no others, of its own file and no
      other; between the old end and the offset there are zeros. */
  lemma WriteAtIs(d: Disk, inode: nat, offset: nat, b: seq<byte>, i: nat)
    requires inode < |d.data|
    ensures var d', was := WriteAt(d, inode, offset, b), d.data[inode];
            && |d'.data| == |d.data| && d'.links == d.links && d'.dirs == d.dirs
            && (forall k | 0 <= k < |d.data| && k != inode :: d'.data[k] == d.data[k])
            && |d'.data[inode]| == (if offset + |b| <= |was| then |was| else offset + |b|)
            && (i < |d'.data[inode]| ==>
                  d'.data[inode][i] == if offset <= i < offset + |b| then b[i - offset]
                                       else if i < |was| then was[i] else 0)
  {
  }

  function Rename(d: Disk, from: Path, to: Path): Disk
    requires from in d.links
  {
    d.(links := (d.links - {from})[to := d.links[from]])
  }

  function Remove(d: Disk, p: Path): Disk {
    d.(links := d.links - {p})
  }

  // ----- handlers ----------------------------------------------------------------

  /** `target` is absent if the requested path has no file name; `body` is all
      the caller will send before it ends the stream. */
  datatype Request = Request(target: Option<Path>, overwrite: bool, mkdir: bool, body: seq<byte>)

  datatype Stage = Start | Prepared | AwaitGo | Copying | AtGuard | AtRename | AtCleanup | AtAck | Done

  /** `read` is what the handler has read from its stream; `final` is the result
      in its last acknowledgement; `created` and `left` record that it made its
      temporary file, and that it gave it up without removing it. */
  datatype Handler = Handler(req: Request, stage: Stage, inode: nat, offset: nat, read: seq<byte>,
                             created: bool, renamed: bool, left: bool, final: Option<bool>)

  datatype State = State(disk: Disk, handlers: seq<Handler>)

  function NewHandler(r: Request): Handler {
    Handler(r, Start, 0, 0, [], false, false, false, None)
  }

  function Initial(d: Disk, reqs: seq<Request>): State {
    State(d, seq(|reqs|, i requires 0 <= i < |reqs| => NewHandler(reqs[i])))
  }

  /** Every boolean says whether the operating system went along. */
  datatype Event =
    | Prepare(h: nat, ok: bool)
    | CreateTemp(h: nat, ok: bool)
    | HearGo(h: nat, go: bool)
    | CopyChunk(h: nat, count: nat)
    | EndOfStream(h: nat)
    | CopyFails(h: nat, count: nat)
    | CheckTarget(h: nat, ok: bool)
    | RenameTemp(h: nat, ok: bool)
    | RemoveTemp(h: nat, ok: bool)
    | SendAck(h: nat)

  predicate AtStage(s: State, h: nat, g: Stage) {
    h < |s.handlers| && s.handlers[h].stage == g
  }

  predicate Holding(s: State, h: nat, g: Stage) {
    AtStage(s, h, g) && s.handlers[h].req.target.Some? && s.handlers[h].inode < |s.disk.data|
  }

  predicate Enabled(s: State, e: Event) {
    match e
    case Prepare(h, _) => AtStage(s, h, Start)
    case CreateTemp(h, _) => AtStage(s, h, Prepared) && s.handlers[h].req.target.Some?
    case HearGo(h, _) => AtStage(s, h, AwaitGo)
    case CopyChunk(h, n) => Holding(s, h, Copying) && |s.handlers[h].read| + n <= |s.handlers[h].req.body|
    case EndOfStream(h) => Holding(s, h, Copying) && s.handlers[h].read == s.handlers[h].req.body
    case CopyFails(h, n) => Holding(s, h, Copying) && |s.handlers[h].read| + n <= |s.handlers[h].req.body|
    case CheckTarget(h, _) => Holding(s, h, AtGuard)
    case RenameTemp(h, _) => Holding(s, h, AtRename)
    case RemoveTemp(h, _) => Holding(s, h, AtCleanup)
    case SendAck(h) => AtStage(s, h, AtAck)
  }

  function Update(s: State, h: nat, v: Handler): State
    requires h < |s.handlers|
  {
    s.(handlers := s.handlers[h := v])
  }

  function Apply(s: State, e: Event): State
    requires Enabled(s, e)
  {
    var v := s.handlers[e.h];
    match e
    case Prepare(h, ok) =>
      if !ok || v.req.target.None? then Update(s, h, v.(stage := Done, final := Some(false)))
      else
        var made := WithDir(s.disk, v.req.target.value.dir, v.req.mkdir);
        if made.Some? then Update(s.(disk := s.disk.(dirs := made.value)), h, v.(stage := Prepared))
        else Update(s, h, v.(stage := Done, final := Some(false)))
    case CreateTemp(h, ok) =>
      if !ok || IsDir(s.disk, TempPath(v.req.target.value)) then Update(s, h, v.(stage := Done, final := Some(false)))
      else
        var temp := TempPath(v.req.target.value);
        var disk := Create(s.disk, temp);
        Update(s.(disk := disk), h, v.(stage := AwaitGo, created := true, inode := disk.links[temp], offset := 0))
    case HearGo(h, go) =>
      Update(s, h, if go then v.(stage := Copying) else v.(stage := Done, left := true))
    case CopyChunk(h, n) =>
      var b := v.req.body[|v.read|..|v.read| + n];
      Update(s.(disk := WriteAt(s.disk, v.inode, v.offset, b)), h, v.(offset := v.offset + |b|, read := v.read + b))
    case EndOfStream(h) => Update(s, h, v.(stage := AtGuard))
    case CopyFails(h, n) =>
      var b := v.req.body[|v.read|..|v.read| + n];
      Update(s.(disk := WriteAt(s.disk, v.inode, v.offset, b)), h, v.(stage := AtCleanup))
    case CheckTarget(h, ok) =>
      var exists_ := v.req.target.value in s.disk.links || IsDir(s.disk, v.req.target.value);
      Update(s, h, v.(stage := if ok && (!exists_ || !v.req.overwrite) then AtRename else AtCleanup))
    case RenameTemp(h, ok) =>
      var temp := TempPath(v.req.target.value);
      if ok && temp in s.disk.links && !IsDir(s.disk, v.req.target.value) then
        Update(s.(disk := Rename(s.disk, temp, v.req.target.value)), h, v.(stage := AtAck, renamed := true))
      else Update(s, h, v.(stage := AtCleanup))
    case RemoveTemp(h, ok) =>
      Update(if ok then s.(disk := Remove(s.disk, TempPath(v.req.target.value))) else s, h,
             v.(stage := AtAck, left := v.left || !ok))
    case SendAck(h) => Update(s, h, v.(stage := Done, final := Some(v.renamed)))
  }

  function Exec(s: State, es: seq<Event>): Option<State>
    decreases |es|
  {
    if es == [] then Some(s)
    else if Enabled(s, es[0]) then Exec(Apply(s, es[0]), es[1..])
    else None
  }

  // ----- disk facts -----------------------------------------------------------------

  /** A path leads to the same inode with the same bytes, or to nothing, on both
      disks. */
  ghost predicate SameAt(d: Disk, d': Disk, q: Path) {
    && (q in d.links <==> q in d'.links)
    && (q in d.links ==>
          && d.links[q] == d'.links[q]
          && (d.links[q] < |d.data| <==> d.links[q] < |d'.data|)
          && (d.links[q] < |d.data| ==> d.data[d.links[q]] == d'.data[d.links[q]]))
  }

  /** Nothing changed but at these two paths. */
  ghost predicate SameElsewhere(d: Disk, d': Disk, p: Path, t: Path) {
    forall q :: q != p && q != t ==> SameAt(d, d', q)
  }

  lemma CreateKeepsOrder(d: Disk, t: Path)
    requires WellFormed(d)
    ensures WellFormed(Create(d, t))
  {
    if t in d.links {
      assert Create(d, t).links == d.links && |Create(d, t).data| == |d.data|;
    }
  }

  lemma CreateFacts(d: Disk, t: Path)
    requires WellFormed(d)
    ensures var d' := Create(d, t);
            && WellFormed(d') && SameElsewhere(d, d', t, t)
            && t in d'.links && d'.links[t] < |d'.data| && d'.data[d'.links[t]] == []
  {
    CreateKeepsOrder(d, t);
    var d' := Create(d, t);
    forall q | q != t
      ensures SameAt(d, d', q)
    {
      if q in d.links {
        assert d.links[q] < |d.data|;
      }
    }
  }

  lemma WriteFacts(d: Disk, t: Path, offset: nat, b: seq<byte>)
    requires WellFormed(d) && t in d.links
    ensures var d' := WriteAt(d, d.links[t], offset, b);
            && WellFormed(d') && SameElsewhere(d, d', t, t)
            && d'.links == d.links && d'.dirs == d.dirs && |d'.data| == |d.data|
            && (offset == |d.data[d.links[t]]| ==> d'.data[d.links[t]] == d.data[d.links[t]] + b)
  {
  }

  lemma RenameFacts(d: Disk, t: Path, p: Path)
    requires WellFormed(d) && t in d.links && p != t
    ensures var d' := Rename(d, t, p);
            && WellFormed(d') && SameElsewhere(d, d', p, t)
            && t !in d'.links && p in d'.links && d'.links[p] == d.links[t] && d'.data == d.data
  {
  }

  lemma RemoveFacts(d: Disk, t: Path)
    requires WellFormed(d)
    ensures var d' := Remove(d, t);
            && WellFormed(d') && SameElsewhere(d, d', t, t) && t !in d'.links
  {
  }

  // ----- what holds of every handler ----------------------------------------------------

  predicate Owning(g: Stage) {
    g.AwaitGo? || g.Copying? || g.AtGuard? || g.AtRename? || g.AtCleanup?
  }

  predicate Faithful(g: Stage) {
    g.AwaitGo? || g.Copying? || g.AtGuard? || g.AtRename?
  }

  /** What a handler for target `p` with temporary file `t` relies on and shows,
      starting from the disk `d0`. */
  ghost predicate TargetOk(d0: Disk, d: Disk, v: Handler, p: Path, t: Path) {
    && (Owning(v.stage) ==> v.created && !v.left && t in d.links && d.links[t] == v.inode)
    && (Faithful(v.stage) && t in d.links && d.links[t] < |d.data| ==>
          d.data[d.links[t]] == v.read && v.offset == |v.read|)
    && (if v.renamed then Content(d, p) == Some(v.read) && t !in d.links
        else (p in d.links <==> p in d0.links) && Content(d, p) == Content(d0, p))
    && (v.stage.AtRename? || v.renamed ==> p !in d0.links || !v.req.overwrite)
    && (v.created && (v.stage.AtAck? || v.stage.Done?) ==> (t in d.links <==> v.left))
    && (!v.created ==> (t in d.links <==> t in d0.links) && Content(d, t) == Content(d0, t))
  }

  ghost predicate HandlerOk(d0: Disk, d: Disk, v: Handler) {
    && (v.renamed ==> v.stage.AtAck? || v.stage.Done?)
    && (v.final.Some? ==> v.stage.Done? && v.final.value == v.renamed)
    && (v.stage.Start? || v.stage.Prepared? ==> v.read == [] && !v.created && !v.left)
    && v.read <= v.req.body
    && (v.stage.AtGuard? || v.stage.AtRename? || v.renamed ==> v.read == v.req.body)
    && match v.req.target
       case None => v.stage.Start? || v.stage.Done?
       case Some(p) => TargetOk(d0, d, v, p, TempPath(p))
  }

  /** No two handlers share a target or a temporary file. */
  ghost predicate Separate(hs: seq<Handler>) {
    forall i, j :: 0 <= i < j < |hs| && hs[i].req.target.Some? && hs[j].req.target.Some? ==>
                     Apart(hs[i].req.target.value, hs[j].req.target.value)
  }

  predicate Concerns(v: Handler, q: Path) {
    v.req.target.Some? && (q == v.req.target.value || q == TempPath(v.req.target.value))
  }

  ghost predicate Inv(d0: Disk, s: State) {
    && WellFormed(s.disk)
    && (forall i :: 0 <= i < |s.handlers| ==> HandlerOk(d0, s.disk, s.handlers[i]))
    && (forall q :: (forall i :: 0 <= i < |s.handlers| ==> !Concerns(s.handlers[i], q)) ==> SameAt(d0, s.disk, q))
  }

  /** A handler is not affected by what happens away from its two files. */
  lemma HandlerOkFrame(d0: Disk, d: Disk, d': Disk, v: Handler)
    requires HandlerOk(d0, d, v)
    requires v.req.target.Some? ==> SameAt(d, d', v.req.target.value) && SameAt(d, d', TempPath(v.req.target.value))
    ensures HandlerOk(d0, d', v)
  {
  }

  ghost predicate CanStep(d0: Disk, s: State, e: Event) {
    WellFormed(s.disk) && Enabled(s, e) && HandlerOk(d0, s.disk, s.handlers[e.h])
  }

  /** One handler's step keeps the disk in order, touches only its own two
      files, and keeps what holds of itself. */
  ghost predicate StepsWell(d0: Disk, s: State, e: Event)
    requires Enabled(s, e)
  {
    var s' := Apply(s, e);
    && WellFormed(s'.disk)
    && |s'.handlers| == |s.handlers|
    && s'.handlers == s.handlers[e.h := s'.handlers[e.h]]
    && s'.handlers[e.h].req == s.handlers[e.h].req
    && HandlerOk(d0, s'.disk, s'.handlers[e.h])
    && (s.handlers[e.h].req.target.None? ==> s'.disk == s.disk)
    && (s.handlers[e.h].req.target.Some? ==>
          SameElsewhere(s.disk, s'.disk, s.handlers[e.h].req.target.value, TempPath(s.handlers[e.h].req.target.value)))
  }

  lemma OwnPrepare(d0: Disk, s: State, e: Event)
    requires CanStep(d0, s, e) && e.Prepare?
    ensures StepsWell(d0, s, e)
  {
    hide TempPath, IsTempName, Parents;
  }

  lemma OwnLocalStep(d0: Disk, s: State, e: Event)
    requires CanStep(d0, s, e)
    requires e.HearGo? || e.EndOfStream? || e.CheckTarget? || e.SendAck?
    ensures StepsWell(d0, s, e)
  {
    hide TempPath, IsTempName, WellFormed;
    assert Apply(s, e).disk == s.disk;
  }

  lemma OwnCreate(d0: Disk, s: State, e: Event)
    requires CanStep(d0, s, e) && e.CreateTemp?
    ensures StepsWell(d0, s, e)
  {
    hide Create;
    var p := s.handlers[e.h].req.target.value;
    TempPathIsInjective(p, p);
    assert p != TempPath(p);
    CreateFacts(s.disk, TempPath(p));
    hide TempPath;
    assert SameAt(s.disk, Apply(s, e).disk, p);
  }

  lemma OwnWrite(d0: Disk, s: State, e: Event)
    requires CanStep(d0, s, e) && (e.CopyChunk? || e.CopyFails?)
    ensures StepsWell(d0, s, e)
  {
    hide WriteAt;
    var v := s.handlers[e.h];
    var p := v.req.target.value;
    TempPathIsInjective(p, p);
    assert p != TempPath(p);
    WriteFacts(s.disk, TempPath(p), v.offset, v.req.body[|v.read|..|v.read| + e.count]);
    hide TempPath;
    assert SameAt(s.disk, Apply(s, e).disk, p);
  }

  lemma OwnRename(d0: Disk, s: State, e: Event)
    requires CanStep(d0, s, e) && e.RenameTemp?
    ensures StepsWell(d0, s, e)
  {
    hide Rename;
    var p := s.handlers[e.h].req.target.value;
    TempPathIsInjective(p, p);
    RenameFacts(s.disk, TempPath(p), p);
    hide TempPath;
  }

  lemma OwnRemove(d0: Disk, s: State, e: Event)
    requires CanStep(d0, s, e) && e.RemoveTemp?
    ensures StepsWell(d0, s, e)
  {
    hide Remove;
    var p := s.handlers[e.h].req.target.value;
    TempPathIsInjective(p, p);
    assert p != TempPath(p);
    RemoveFacts(s.disk, TempPath(p));
    hide TempPath;
    assert SameAt(s.disk, Apply(s, e).disk, p);
  }

  lemma OwnStep(d0: Disk, s: State, e: Event)
    requires CanStep(d0, s, e)
    ensures StepsWell(d0, s, e)
  {
    if e.Prepare? {
      OwnPrepare(d0, s, e);
    } else if e.CreateTemp? {
      OwnCreate(d0, s, e);
    } else if e.CopyChunk? || e.CopyFails? {
      OwnWrite(d0, s, e);
    } else if e.RenameTemp? {
      OwnRename(d0, s, e);
    } else if e.RemoveTemp? {
      OwnRemove(d0, s, e);
    } else {
      OwnLocalStep(d0, s, e);
    }
    hide StepsWell, CanStep;
  }

  lemma SeparateFiles(hs: seq<Handler>, i: nat, j: nat)
    requires Separate(hs) && i < |hs| && j < |hs| && i != j && hs[i].req.target.Some? && hs[j].req.target.Some?
    ensures !Concerns(hs[i], hs[j].req.target.value) && !Concerns(hs[i], TempPath(hs[j].req.target.value))
  {
    var p, q := hs[i].req.target.value, hs[j].req.target.value;
    TempPathIsInjective(p, q);
    assert i < j ==> Apart(p, q);
    assert j < i ==> Apart(q, p);
  }

  lemma SameAtTransitive(d0: Disk, d: Disk, d': Disk, q: Path)
    requires SameAt(d0, d, q) && SameAt(d, d', q)
    ensures SameAt(d0, d', q)
  {
  }

  /** The footprint of a step, in terms of the files its handler is about. */
  lemma StepFootprint(d0: Disk, s: State, e: Event)
    requires Inv(d0, s) && Separate(s.handlers) && Enabled(s, e)
    ensures e.h < |s.handlers| && StepsWell(d0, s, e)
    ensures |Apply(s, e).handlers| == |s.handlers|
    ensures forall i :: 0 <= i < |s.handlers| ==> Apply(s, e).handlers[i].req == s.handlers[i].req
    ensures forall q :: !Concerns(s.handlers[e.h], q) ==> SameAt(s.disk, Apply(s, e).disk, q)
  {
    hide HandlerOk, WellFormed, Apply, TempPath;
    assert e.h < |s.handlers|;
    assert CanStep(d0, s, e);
    OwnStep(d0, s, e);
    hide Enabled, Inv, SameAt;
  }

  lemma StepKeepsInv(d0: Disk, s: State, e: Event)
    requires Inv(d0, s) && Separate(s.handlers) && Enabled(s, e)
    ensures Inv(d0, Apply(s, e)) && Separate(Apply(s, e).handlers)
  {
    hide HandlerOk, WellFormed, Enabled, Apply, SameAt, TempPath, IsTempName;
    var s' := Apply(s, e);
    StepFootprint(d0, s, e);
    forall i | 0 <= i < |s'.handlers|
      ensures HandlerOk(d0, s'.disk, s'.handlers[i])
    {
      if i != e.h {
        var v := s.handlers[i];
        if v.req.target.Some? {
          assert !Concerns(s.handlers[e.h], v.req.target.value) &&
                 !Concerns(s.handlers[e.h], TempPath(v.req.target.value)) by {
            if s.handlers[e.h].req.target.Some? {
              SeparateFiles(s.handlers, e.h, i);
            }
          }
        }
        HandlerOkFrame(d0, s.disk, s'.disk, v);
      }
    }
    SameRequestsSeparate(s.handlers, s'.handlers);
    UntouchedElsewhere(d0, s, e);
  }

  lemma SameRequestsSeparate(hs: seq<Handler>, hs': seq<Handler>)
    requires Separate(hs) && |hs| == |hs'| && forall i :: 0 <= i < |hs| ==> hs'[i].req == hs[i].req
    ensures Separate(hs')
  {
    hide IsTempName;
  }

  lemma UntouchedElsewhere(d0: Disk, s: State, e: Event)
    requires Inv(d0, s) && Separate(s.handlers) && Enabled(s, e)
    ensures var s' := Apply(s, e);
            forall q :: (forall i :: 0 <= i < |s'.handlers| ==> !Concerns(s'.handlers[i], q)) ==> SameAt(d0, s'.disk, q)
  {
    hide HandlerOk, WellFormed, Enabled, Apply, SameAt, TempPath, StepsWell;
    StepFootprint(d0, s, e);
    var s' := Apply(s, e);
    forall q | forall i :: 0 <= i < |s'.handlers| ==> !Concerns(s'.handlers[i], q)
      ensures SameAt(d0, s'.disk, q)
    {
      forall i | 0 <= i < |s.handlers|
        ensures !Concerns(s.handlers[i], q)
      {
        assert !Concerns(s'.handlers[i], q);
      }
      SameAtTransitive(d0, s.disk, s'.disk, q);
    }
  }

  lemma {:induction false} RunKeepsInv(d0: Disk, s: State, es: seq<Event>, t: State)
    requires Inv(d0, s) && Separate(s.handlers) && Exec(s, es) == Some(t)
    ensures Inv(d0, t) && |t.handlers| == |s.handlers|
    ensures forall i :: 0 <= i < |s.handlers| ==> t.handlers[i].req == s.handlers[i].req
    decreases |es|
  {
    hide Inv, Separate, Enabled, Apply;
    if es != [] {
      StepKeepsInv(d0, s, es[0]);
      StepFootprint(d0, s, es[0]);
      var s' := Apply(s, es[0]);
      assert forall i :: 0 <= i < |s.handlers| ==> s'.handlers[i].req == s.handlers[i].req;
      RunKeepsInv(d0, s', es[1..], t);
    }
  }

  // ----- what every run shows -------------------------------------------------------------

  /** The requests' targets are apart from each other. */
  ghost predicate DistinctTargets(reqs: seq<Request>) {
    forall i, j :: 0 <= i < j < |reqs| && reqs[i].target.Some? && reqs[j].target.Some? ==>
                     Apart(reqs[i].target.value, reqs[j].target.value)
  }

  lemma InitialInv(d0: Disk, reqs: seq<Request>)
    requires WellFormed(d0) && DistinctTargets(reqs)
    ensures Inv(d0, Initial(d0, reqs)) && Separate(Initial(d0, reqs).handlers)
  {
    hide WellFormed, IsTempName, TempPath;
  }

  /** Every reachable state shows each target as it was, or whole: all its
      caller sent before the end of the stream. Nothing but the targets and
      their temporary files is ever changed. A success acknowledgement is sent
      only after the rename, any other only if there was none. */
  lemma WritesAreAtomic(d0: Disk, reqs: seq<Request>, es: seq<Event>, t: State, h: nat)
    requires WellFormed(d0) && DistinctTargets(reqs) && h < |reqs|
    requires Exec(Initial(d0, reqs), es) == Some(t)
    ensures |t.handlers| == |reqs| && t.handlers[h].req == reqs[h]
    ensures var v := t.handlers[h];
            && (reqs[h].target.Some? ==>
                  Content(t.disk, reqs[h].target.value) ==
                  if v.renamed then Some(reqs[h].body) else Content(d0, reqs[h].target.value))
            && (v.final.Some? ==> v.final.value == v.renamed)
            && (v.renamed ==> v.stage.AtAck? || v.stage.Done?)
    ensures forall q :: (forall i :: 0 <= i < |reqs| ==> reqs[i].target.Some? ==>
                                       q != reqs[i].target.value && q != TempPath(reqs[i].target.value))
                          ==> Content(t.disk, q) == Content(d0, q)
  {
    var s0 := Initial(d0, reqs);
    InitialInv(d0, reqs);
    RunKeepsInv(d0, s0, es, t);
    hide WellFormed, IsTempName, TempPath, Exec;
    assert HandlerOk(d0, t.disk, t.handlers[h]);
    forall q | forall i :: 0 <= i < |reqs| ==> reqs[i].target.Some? ==>
                             q != reqs[i].target.value && q != TempPath(reqs[i].target.value)
      ensures Content(t.disk, q) == Content(d0, q)
    {
      forall i | 0 <= i < |t.handlers|
        ensures !Concerns(t.handlers[i], q)
      {
        assert t.handlers[i].req == s0.handlers[i].req == reqs[i];
      }
      assert SameAt(d0, t.disk, q);
    }
  }

  /** What gives a temporary file up: no word to go on, or a failed removal. */
  predicate GivesUp(e: Event, h: nat) {
    e == HearGo(h, false) || e == RemoveTemp(h, false)
  }

  lemma StepLeaves(s: State, e: Event, h: nat)
    requires Enabled(s, e) && h < |s.handlers|
    ensures |Apply(s, e).handlers| == |s.handlers|
    ensures Apply(s, e).handlers[h].left <==> s.handlers[h].left || GivesUp(e, h)
  {
    hide Create, WriteAt, Rename, Remove, WithDir, TempPath, IsDir;
  }

  lemma {:induction false} LeftMeansGivenUp(s: State, es: seq<Event>, t: State, h: nat)
    requires Exec(s, es) == Some(t) && h < |s.handlers| && !s.handlers[h].left
    ensures |t.handlers| == |s.handlers|
    ensures t.handlers[h].left <==> exists e <- es :: GivesUp(e, h)
    decreases |es|
  {
    hide Enabled, Apply;
    if es != [] {
      var s' := Apply(s, es[0]);
      StepLeaves(s, es[0], h);
      assert es == [es[0]] + es[1..];
      if s'.handlers[h].left {
        LeftStaysLeft(s', es[1..], t, h);
      } else {
        LeftMeansGivenUp(s', es[1..], t, h);
      }
    }
  }

  lemma {:induction false} LeftStaysLeft(s: State, es: seq<Event>, t: State, h: nat)
    requires Exec(s, es) == Some(t) && h < |s.handlers| && s.handlers[h].left
    ensures |t.handlers| == |s.handlers| && t.handlers[h].left
    decreases |es|
  {
    hide Enabled, Apply;
    if es != [] {
      StepLeaves(s, es[0], h);
      LeftStaysLeft(Apply(s, es[0]), es[1..], t, h);
    }
  }

  /** Which handlers leave the temporary file they made behind: those that were
      told not to go on, or heard nothing, and those whose removal failed; no others. */
  lemma TempFilesLeft(d0: Disk, reqs: seq<Request>, es: seq<Event>, t: State, h: nat)
    requires WellFormed(d0) && DistinctTargets(reqs) && h < |reqs| && reqs[h].target.Some?
    requires Exec(Initial(d0, reqs), es) == Some(t)
    ensures |t.handlers| == |reqs|
    ensures var v := t.handlers[h];
            v.created && v.stage.Done? ==>
              (TempPath(reqs[h].target.value) in t.disk.links <==> HearGo(h, false) in es || RemoveTemp(h, false) in es)
  {
    InitialInv(d0, reqs);
    RunKeepsInv(d0, Initial(d0, reqs), es, t);
    LeftMeansGivenUp(Initial(d0, reqs), es, t, h);
    hide WellFormed, TempPath, Exec;
    assert HandlerOk(d0, t.disk, t.handlers[h]);
    assert (exists e <- es :: GivesUp(e, h)) <==> HearGo(h, false) in es || RemoveTemp(h, false) in es by {
      assert GivesUp(HearGo(h, false), h) && GivesUp(RemoveTemp(h, false), h);
    }
  }

  // ----- handlers end and answer ---------------------------------------------------------

  function StageRank(g: Stage): nat {
    match g
    case Start => 8
    case Prepared => 7
    case AwaitGo => 6
    case Copying => 5
    case AtGuard => 4
    case AtRename => 3
    case AtCleanup => 2
    case AtAck => 1
    case Done => 0
  }

  /** How much a handler still has before it. */
  function Ahead(v: Handler): int {
    StageRank(v.stage) + |v.req.body| - |v.read|
  }

  lemma OthersStay(s: State, e: Event, h: nat)
    requires Enabled(s, e) && h < |s.handlers| && e.h != h
    ensures |Apply(s, e).handlers| == |s.handlers| && Apply(s, e).handlers[h] == s.handlers[h]
  {
    hide Create, WriteAt, Rename, Remove, WithDir, TempPath, IsDir;
  }

  lemma MoverAdvances(s: State, e: Event)
    requires Enabled(s, e)
    ensures |Apply(s, e).handlers| == |s.handlers|
    ensures Ahead(Apply(s, e).handlers[e.h]) < Ahead(s.handlers[e.h]) || (e.CopyChunk? && e.count == 0)
  {
    hide Create, WriteAt, Rename, Remove, WithDir, TempPath, IsDir;
  }

  lemma StepMovesOn(s: State, e: Event, h: nat)
    requires Enabled(s, e) && h < |s.handlers|
    ensures |Apply(s, e).handlers| == |s.handlers|
    ensures var v, v' := s.handlers[h], Apply(s, e).handlers[h];
            if e.h != h then v' == v else Ahead(v') < Ahead(v) || (e.CopyChunk? && e.count == 0)
  {
    hide Apply, Enabled;
    if e.h == h {
      MoverAdvances(s, e);
    } else {
      OthersStay(s, e, h);
    }
  }

  /** A handler that is not done has a step of its own, and each step, but for reading
      nothing, brings it nearer its end and leaves the other handlers as they were. */
  lemma HandlersGoOn(d0: Disk, reqs: seq<Request>, es: seq<Event>, t: State, h: nat, e: Event)
    requires WellFormed(d0) && DistinctTargets(reqs) && h < |reqs|
    requires Exec(Initial(d0, reqs), es) == Some(t)
    ensures |t.handlers| == |reqs| && Ahead(t.handlers[h]) >= 0
    ensures !t.handlers[h].stage.Done? ==> exists f: Event :: f.h == h && Enabled(t, f)
    ensures Enabled(t, e) && e.h == h && !(e.CopyChunk? && e.count == 0) ==>
              |Apply(t, e).handlers| == |reqs| && Ahead(Apply(t, e).handlers[h]) < Ahead(t.handlers[h])
    ensures Enabled(t, e) && e.h != h ==>
              |Apply(t, e).handlers| == |reqs| && Apply(t, e).handlers[h] == t.handlers[h]
  {
    InitialInv(d0, reqs);
    RunKeepsInv(d0, Initial(d0, reqs), es, t);
    assert HandlerOk(d0, t.disk, t.handlers[h]);
    if Enabled(t, e) {
      StepMovesOn(t, e, h);
    }
    hide Apply, Exec, Separate, StageRank, Initial;
    var v := t.handlers[h];
    HasStep(d0, t, h);
  }

  function NextStep(v: Handler, h: nat): Event {
    match v.stage
    case Start => Prepare(h, true)
    case Prepared => CreateTemp(h, true)
    case AwaitGo => HearGo(h, true)
    case Copying => CopyFails(h, 0)
    case AtGuard => CheckTarget(h, true)
    case AtRename => RenameTemp(h, true)
    case AtCleanup => RemoveTemp(h, true)
    case _ => SendAck(h)
  }

  lemma HasStep(d0: Disk, s: State, h: nat)
    requires WellFormed(s.disk) && h < |s.handlers| && HandlerOk(d0, s.disk, s.handlers[h])
    ensures !s.handlers[h].stage.Done? ==> NextStep(s.handlers[h], h).h == h && Enabled(s, NextStep(s.handlers[h], h))
  {
    hide TempPath;
  }

  predicate Unanswered(v: Handler) {
    v.stage.Done? && v.final.None?
  }

  predicate AnswersLast(v: Handler) {
    v.final.Some? ==> v.stage.Done?
  }

  lemma StepAnswers(s: State, e: Event, h: nat)
    requires Enabled(s, e) && h < |s.handlers| && AnswersLast(s.handlers[h])
    ensures |Apply(s, e).handlers| == |s.handlers| && AnswersLast(Apply(s, e).handlers[h])
    ensures Unanswered(Apply(s, e).handlers[h]) <==> Unanswered(s.handlers[h]) || e == HearGo(h, false)
  {
    hide Create, WriteAt, Rename, Remove, WithDir, TempPath, IsDir;
  }

  lemma {:induction false} UnansweredIff(s: State, es: seq<Event>, t: State, h: nat)
    requires Exec(s, es) == Some(t) && h < |s.handlers| && AnswersLast(s.handlers[h])
    ensures |t.handlers| == |s.handlers|
    ensures Unanswered(t.handlers[h]) <==> Unanswered(s.handlers[h]) || HearGo(h, false) in es
    decreases |es|
  {
    hide Enabled, Apply, Unanswered, AnswersLast;
    if es != [] {
      StepAnswers(s, es[0], h);
      assert es == [es[0]] + es[1..];
      UnansweredIff(Apply(s, es[0]), es[1..], t, h);
    }
  }

  /** A handler ends without a last answer exactly if it was not told to go on. */
  lemma AnswersUnlessNotToldToGo(d0: Disk, reqs: seq<Request>, es: seq<Event>, t: State, h: nat)
    requires h < |reqs| && Exec(Initial(d0, reqs), es) == Some(t)
    ensures |t.handlers| == |reqs|
    ensures t.handlers[h].stage.Done? && t.handlers[h].final.None? <==> HearGo(h, false) in es
  {
    hide Exec;
    UnansweredIff(Initial(d0, reqs), es, t, h);
  }

  // ----- runs step by step ------------------------------------------------------------------

  lemma {:induction false} Extend(s: State, es: seq<Event>, e: Event)
    requires Exec(s, es).Some? && Enabled(Exec(s, es).value, e)
    ensures Exec(s, es + [e]) == Some(Apply(Exec(s, es).value, e))
    decreases |es|
  {
    hide Enabled, Apply;
    if es == [] {
      assert es + [e] == [e];
      assert [e][1..] == [];
    } else {
      Extend(Apply(s, es[0]), es[1..], e);
      assert (es + [e])[1..] == es[1..] + [e];
    }
  }

  ghost predicate Reachable(d0: Disk, reqs: seq<Request>, s: State) {
    exists es: seq<Event> :: Exec(Initial(d0, reqs), es) == Some(s)
  }

  lemma ReachStep(d0: Disk, reqs: seq<Request>, s: State, e: Event)
    requires Reachable(d0, reqs, s) && Enabled(s, e)
    ensures Reachable(d0, reqs, Apply(s, e))
  {
    var es: seq<Event> :| Exec(Initial(d0, reqs), es) == Some(s);
    hide Apply, Enabled, Initial;
    Extend(Initial(d0, reqs), es, e);
  }

  // ----- which writes can succeed -----------------------------------------------------------

  /** What the disk must allow for a request to succeed: its directory is named, and
      there or can be made, neither its target nor its temporary file is a directory, and
      the target does not exist or `overwrite` is not set. */
  predicate Writable(d: Disk, r: Request)
    requires r.target.Some?
  {
    var p := r.target.value;
    && p.dir != [] && (p.dir in d.dirs || (r.mkdir && WayClear(d, p.dir)))
    && !IsDir(d, TempPath(p)) && !IsDir(d, p)
    && (p !in d.links || !r.overwrite)
  }

  ghost predicate SomeRunCommits(d0: Disk, r: Request) {
    exists t :: Reachable(d0, [r], t) && CommittedIn(t)
  }

  predicate CommittedIn(t: State) {
    |t.handlers| >= 1 && t.handlers[0].final == Some(true)
  }

  /** The first of several handlers at a given stage with its temporary file open
      and nothing in the way of replacing its target; the others have not begun. */
  ghost predicate FirstAt(s: State, reqs: seq<Request>, g: Stage, read: seq<byte>)
    requires reqs != [] && reqs[0].target.Some?
  {
    && |s.handlers| == |reqs| && WellFormed(s.disk)
    && (forall i :: 1 <= i < |reqs| ==> s.handlers[i] == NewHandler(reqs[i]))
    && Ready(s.disk, s.handlers[0], reqs[0], g, read)
  }

  predicate Ready(d: Disk, v: Handler, r: Request, g: Stage, read: seq<byte>)
    requires r.target.Some?
  {
    var p := r.target.value;
    var t := TempPath(p);
    && v.req == r && v.stage == g && v.read == read && v.offset == |read| && !v.renamed
    && t in d.links && d.links[t] == v.inode && !IsDir(d, t) && !IsDir(d, p)
    && p.dir != [] && p.dir in d.dirs
    && (p in d.links ==> !r.overwrite)
  }

  /** The first handler has its directory. */
  lemma FirstPrepares(d0: Disk, reqs: seq<Request>) returns (s: State)
    requires reqs != [] && reqs[0].target.Some? && Writable(d0, reqs[0])
    ensures Reachable(d0, reqs, s) && |s.handlers| == |reqs|
    ensures forall i :: 1 <= i < |reqs| ==> s.handlers[i] == NewHandler(reqs[i])
    ensures s.handlers[0] == NewHandler(reqs[0]).(stage := Prepared)
    ensures var p := reqs[0].target.value;
            && s.disk.links == d0.links && s.disk.data == d0.data && p.dir != [] && p.dir in s.disk.dirs
            && !IsDir(s.disk, p) && !IsDir(s.disk, TempPath(p))
  {
    var r := reqs[0];
    WithDirIs(d0, r.target.value.dir, r.mkdir, []);
    var s0 := Initial(d0, reqs);
    assert Exec(s0, []) == Some(s0);
    assert Enabled(s0, Prepare(0, true));
    ReachStep(d0, reqs, s0, Prepare(0, true));
    NewDirsAreElsewhere(d0, r.target.value, r.mkdir);
    hide Reachable, TempPath, WithDir, IsDir;
    s := Apply(s0, Prepare(0, true));
  }

  lemma FirstOpens(d0: Disk, reqs: seq<Request>) returns (s: State)
    requires WellFormed(d0) && reqs != [] && reqs[0].target.Some? && Writable(d0, reqs[0])
    ensures Reachable(d0, reqs, s) && FirstAt(s, reqs, AwaitGo, [])
  {
    hide Reachable, TempPath, WithDir, Create, IsDir, Parents;
    var p := reqs[0].target.value;
    var s1 := FirstPrepares(d0, reqs);
    SameLinksStayInOrder(d0, s1.disk);
    TempPathIsInjective(p, p);
    CreateFacts(s1.disk, TempPath(p));
    CreateKeepsDirs(s1.disk, TempPath(p), p);
    ReachStep(d0, reqs, s1, CreateTemp(0, true));
    hide WellFormed;
    s := Apply(s1, CreateTemp(0, true));
    assert SameAt(s1.disk, s.disk, p);
  }

  lemma SameLinksStayInOrder(d: Disk, d': Disk)
    requires WellFormed(d) && d'.links == d.links && d'.data == d.data
    ensures WellFormed(d')
  {
  }

  lemma CreateKeepsDirs(d: Disk, t: Path, p: Path)
    ensures Create(d, t).dirs == d.dirs
    ensures IsDir(Create(d, t), p) <==> IsDir(d, p)
    ensures IsDir(Create(d, t), t) <==> IsDir(d, t)
  {
  }

  /** Making the target's directory makes neither of its files a directory. */
  lemma NewDirsAreElsewhere(d: Disk, p: Path, mkdir: bool)
    requires WithDir(d, p.dir, mkdir).Some?
    ensures var dirs := WithDir(d, p.dir, mkdir).value;
            && p.dir in dirs && d.dirs <= dirs
            && (IsDir(d.(dirs := dirs), p) <==> IsDir(d, p))
            && (IsDir(d.(dirs := dirs), TempPath(p)) <==> IsDir(d, TempPath(p)))
  {
    assert p.dir == p.dir[..|p.dir|];
    assert forall q <- Parents(p.dir) :: |q| <= |p.dir|;
    assert |p.dir + [p.name]| > |p.dir| && |p.dir + [TempPath(p).name]| > |p.dir|;
  }

  lemma FirstReceives(d0: Disk, reqs: seq<Request>, s: State) returns (t: State)
    requires reqs != [] && reqs[0].target.Some? && Reachable(d0, reqs, s) && FirstAt(s, reqs, AwaitGo, [])
    ensures Reachable(d0, reqs, t) && FirstAt(t, reqs, Copying, reqs[0].body)
  {
    hide WriteAt, TempPath, Reachable;
    var r := reqs[0];
    ReachStep(d0, reqs, s, HearGo(0, true));
    var s1 := Apply(s, HearGo(0, true));
    ReachStep(d0, reqs, s1, CopyChunk(0, |r.body|));
    WriteFacts(s1.disk, TempPath(r.target.value), 0, r.body);
    hide WellFormed;
    assert r.body[0..|r.body|] == r.body;
    t := Apply(s1, CopyChunk(0, |r.body|));
  }

  lemma FirstPasses(d0: Disk, reqs: seq<Request>, s: State) returns (t: State)
    requires reqs != [] && reqs[0].target.Some? && Reachable(d0, reqs, s) && FirstAt(s, reqs, Copying, reqs[0].body)
    ensures Reachable(d0, reqs, t) && FirstAt(t, reqs, AtRename, reqs[0].body)
  {
    hide TempPath, Reachable;
    ReachStep(d0, reqs, s, EndOfStream(0));
    var s1 := Apply(s, EndOfStream(0));
    ReachStep(d0, reqs, s1, CheckTarget(0, true));
    t := Apply(s1, CheckTarget(0, true));
  }

  /** The first handler renames and acknowledges what its temporary file holds. */
  lemma FirstCommits(d0: Disk, reqs: seq<Request>, s: State, b: seq<byte>) returns (t: State)
    requires reqs != [] && reqs[0].target.Some? && Reachable(d0, reqs, s) && |s.handlers| >= 1
    requires Ready(s.disk, s.handlers[0], reqs[0], AtRename, reqs[0].body)
    requires WellFormed(s.disk) && Content(s.disk, TempPath(reqs[0].target.value)) == Some(b)
    ensures Reachable(d0, reqs, t) && CommittedIn(t) && Content(t.disk, reqs[0].target.value) == Some(b)
  {
    hide TempPath, Reachable, Rename, WellFormed;
    var s1 := FirstRenames(d0, reqs, s, b);
    ReachStep(d0, reqs, s1, SendAck(0));
    t := Apply(s1, SendAck(0));
  }

  lemma FirstRenames(d0: Disk, reqs: seq<Request>, s: State, b: seq<byte>) returns (t: State)
    requires reqs != [] && reqs[0].target.Some? && Reachable(d0, reqs, s) && |s.handlers| >= 1
    requires Ready(s.disk, s.handlers[0], reqs[0], AtRename, reqs[0].body)
    requires WellFormed(s.disk) && Content(s.disk, TempPath(reqs[0].target.value)) == Some(b)
    ensures Reachable(d0, reqs, t) && |t.handlers| >= 1 && t.handlers[0].stage == AtAck && t.handlers[0].renamed
    ensures Content(t.disk, reqs[0].target.value) == Some(b)
  {
    hide TempPath, Reachable, Rename;
    var p := reqs[0].target.value;
    TempPathIsInjective(p, p);
    ReachStep(d0, reqs, s, RenameTemp(0, true));
    RenameFacts(s.disk, TempPath(p), p);
    t := Apply(s, RenameTemp(0, true));
    hide WellFormed;
  }

  lemma WritableCommits(d0: Disk, r: Request)
    requires WellFormed(d0) && r.target.Some? && Writable(d0, r)
    ensures SomeRunCommits(d0, r)
  {
    hide Writable, Ready, Reachable, CommittedIn, WellFormed, TempPath;
    var s1 := FirstOpens(d0, [r]);
    var s2 := FirstReceives(d0, [r], s1);
    var s3 := FirstPasses(d0, [r], s2);
    RenamesItsOwn(s3, [r]);
    var t := FirstCommits(d0, [r], s3, Content(s3.disk, TempPath(r.target.value)).value);
  }

  /** A copy that fails after any part of the body can end with the failure
      acknowledged, the temporary file gone and the target as it was. */
  lemma FailedCopyCleansUp(d0: Disk, r: Request, n: nat) returns (t: State)
    requires WellFormed(d0) && r.target.Some? && Writable(d0, r) && n <= |r.body|
    ensures Reachable(d0, [r], t) && |t.handlers| == 1 && t.handlers[0].final == Some(false)
    ensures TempPath(r.target.value) !in t.disk.links && Content(t.disk, r.target.value) == Content(d0, r.target.value)
  {
    hide Writable, Reachable, CommittedIn, TempPath, Create, WriteAt;
    var s1 := FirstOpens(d0, [r]);
    ReachStep(d0, [r], s1, HearGo(0, true));
    var s2 := Apply(s1, HearGo(0, true));
    ReachStep(d0, [r], s2, CopyFails(0, n));
    var s3 := Apply(s2, CopyFails(0, n));
    WriteFacts(s2.disk, TempPath(r.target.value), 0, r.body[0..n]);
    ReachStep(d0, [r], s3, RemoveTemp(0, true));
    var s4 := Apply(s3, RemoveTemp(0, true));
    ReachStep(d0, [r], s4, SendAck(0));
    t := Apply(s4, SendAck(0));
    assert t.handlers[0].final == Some(false) && !t.handlers[0].renamed;
    AtomicAlone(d0, r, t);
  }

  lemma AtomicAlone(d0: Disk, r: Request, t: State)
    requires WellFormed(d0) && r.target.Some? && Reachable(d0, [r], t)
    ensures |t.handlers| == 1
    ensures !t.handlers[0].renamed ==> Content(t.disk, r.target.value) == Content(d0, r.target.value)
  {
    var es: seq<Event> :| Exec(Initial(d0, [r]), es) == Some(t);
    hide Exec, WellFormed;
    WritesAreAtomic(d0, [r], es, t, 0);
  }

  lemma RenamesItsOwn(s: State, reqs: seq<Request>)
    requires reqs != [] && reqs[0].target.Some? && FirstAt(s, reqs, AtRename, reqs[0].body)
    ensures |s.handlers| >= 1 && WellFormed(s.disk) && Content(s.disk, TempPath(reqs[0].target.value)).Some?
    ensures Ready(s.disk, s.handlers[0], reqs[0], AtRename, reqs[0].body)
  {
  }

  /** What is known of a request served alone. */
  ghost predicate LoneOk(d0: Disk, s: State, r: Request)
    requires r.target.Some?
  {
    && |s.handlers| == 1 && s.handlers[0].req == r
    && var v, p := s.handlers[0], r.target.value;
       && (IsDir(s.disk, p) <==> IsDir(d0, p)) && (IsDir(s.disk, TempPath(p)) <==> IsDir(d0, TempPath(p)))
       && (v.renamed ==> v.stage.AtAck? || v.stage.Done?)
       && (!v.renamed ==> (p in s.disk.links <==> p in d0.links))
       && (v.stage.Start? ==> s.disk == d0 && v.final.None?)
       && (v.final.Some? ==> v.stage.Done? && v.final.value == v.renamed)
       && (!v.stage.Start? && !(v.stage.Done? && !v.renamed) ==> WithDir(d0, p.dir, r.mkdir).Some?)
       && (Owning(v.stage) || v.renamed ==> !IsDir(d0, TempPath(p)))
       && (v.stage.AtRename? || v.renamed ==> !r.overwrite || (p !in d0.links && !IsDir(d0, p)))
       && (v.renamed ==> !IsDir(d0, p))
  }

  lemma LonePrepare(d0: Disk, s: State, e: Event, r: Request)
    requires r.target.Some? && LoneOk(d0, s, r) && Enabled(s, e) && e.Prepare?
    ensures LoneOk(d0, Apply(s, e), r)
  {
    var p := r.target.value;
    if WithDir(s.disk, p.dir, r.mkdir).Some? {
      NewDirsAreElsewhere(s.disk, p, r.mkdir);
    }
    hide TempPath, WithDir, IsDir;
  }

  lemma LoneOnDisk(d0: Disk, s: State, e: Event, r: Request)
    requires r.target.Some? && LoneOk(d0, s, r) && Enabled(s, e) && (e.CreateTemp? || e.RenameTemp? || e.RemoveTemp?)
    ensures LoneOk(d0, Apply(s, e), r)
  {
    TempPathIsInjective(r.target.value, r.target.value);
    hide TempPath, WithDir;
  }

  lemma LoneElsewhere(d0: Disk, s: State, e: Event, r: Request)
    requires r.target.Some? && LoneOk(d0, s, r) && Enabled(s, e)
    requires !e.Prepare? && !e.CreateTemp? && !e.RenameTemp? && !e.RemoveTemp?
    ensures LoneOk(d0, Apply(s, e), r)
  {
    hide TempPath, WithDir;
    assert Apply(s, e).disk.links == s.disk.links && Apply(s, e).disk.dirs == s.disk.dirs;
    hide WriteAt;
  }

  lemma LoneStep(d0: Disk, s: State, e: Event, r: Request)
    requires r.target.Some? && LoneOk(d0, s, r) && Enabled(s, e)
    ensures LoneOk(d0, Apply(s, e), r)
  {
    hide LoneOk, Enabled, Apply;
    if e.Prepare? {
      LonePrepare(d0, s, e, r);
    } else if e.CreateTemp? || e.RenameTemp? || e.RemoveTemp? {
      LoneOnDisk(d0, s, e, r);
    } else {
      LoneElsewhere(d0, s, e, r);
    }
  }

  lemma {:induction false} LoneRun(d0: Disk, s: State, es: seq<Event>, r: Request)
    requires r.target.Some? && LoneOk(d0, s, r) && Exec(s, es).Some?
    ensures LoneOk(d0, Exec(s, es).value, r)
    decreases |es|
  {
    hide LoneOk, Apply, Enabled;
    if es != [] {
      LoneStep(d0, s, es[0], r);
      LoneRun(d0, Apply(s, es[0]), es[1..], r);
    }
  }

  /** The flag works the other way round than its name: as far as the disk is
      concerned, a request can succeed exactly if its directory is named, and there
      or can be made, neither of its files is a directory, and the target does not exist or
      `overwrite` is not set. */
  lemma OverwriteGuardIff(d0: Disk, r: Request)
    requires WellFormed(d0) && r.target.Some?
    ensures SomeRunCommits(d0, r) <==> Writable(d0, r)
  {
    if Writable(d0, r) {
      WritableCommits(d0, r);
    }
    if SomeRunCommits(d0, r) {
      var t :| Reachable(d0, [r], t) && CommittedIn(t);
      var es: seq<Event> :| Exec(Initial(d0, [r]), es) == Some(t);
      WithDirIs(d0, r.target.value.dir, r.mkdir, []);
      hide WithDir, TempPath, IsDir, Exec, Reachable, WayClear;
      LoneRun(d0, Initial(d0, [r]), es, r);
    }
  }

  // ----- why the targets must be apart ---------------------------------------------------------

  /** Two requests for one target share one temporary file, and that is never
      safe: whatever the disk and whatever the two send, if the first can succeed
      and the target's directory is there, some run acknowledges the first with
      success and leaves the target empty, because the second opened the file
      between the first's check and its rename. */
  lemma SharedTargetLosesWrite(d0: Disk, r1: Request, r2: Request)
    requires WellFormed(d0) && r1.target.Some? && r2.target == r1.target && Writable(d0, r1)
    ensures exists t :: Reachable(d0, [r1, r2], t) && CommittedIn(t) && Content(t.disk, r1.target.value) == Some([])
  {
    hide Writable, Ready, Reachable, CommittedIn, WellFormed, TempPath;
    var reqs := [r1, r2];
    var s1 := FirstOpens(d0, reqs);
    var s2 := FirstReceives(d0, reqs, s1);
    var s3 := FirstPasses(d0, reqs, s2);
    var s4 := SecondOpens(d0, reqs, s3);
    var t := FirstCommits(d0, reqs, s4, []);
  }

  lemma SecondOpens(d0: Disk, reqs: seq<Request>, s: State) returns (t: State)
    requires |reqs| == 2 && reqs[0].target.Some? && reqs[1].target == reqs[0].target
    requires Reachable(d0, reqs, s) && FirstAt(s, reqs, AtRename, reqs[0].body)
    ensures Reachable(d0, reqs, t) && |t.handlers| >= 1 && WellFormed(t.disk)
    ensures Ready(t.disk, t.handlers[0], reqs[0], AtRename, reqs[0].body)
    ensures Content(t.disk, TempPath(reqs[0].target.value)) == Some([])
  {
    hide Reachable, Create, TempPath, Parents;
    var p := reqs[0].target.value;
    TempPathIsInjective(p, p);
    assert s.handlers[1] == NewHandler(reqs[1]);
    ReachStep(d0, reqs, s, Prepare(1, true));
    var s1 := Apply(s, Prepare(1, true));
    assert s1.disk == s.disk && s1.handlers[0] == s.handlers[0];
    ReachStep(d0, reqs, s1, CreateTemp(1, true));
    CreateFacts(s.disk, TempPath(p));
    CreateKeeps(s.disk, TempPath(p));
    hide WellFormed;
    t := Apply(s1, CreateTemp(1, true));
    assert t.disk == Create(s.disk, TempPath(p)) && t.handlers[0] == s.handlers[0];
  }

  lemma CreateKeeps(d: Disk, t: Path)
    requires WellFormed(d) && t in d.links
    ensures Create(d, t).links == d.links && Create(d, t).dirs == d.dirs
  {
  }

  /** Nor is it safe if one target is another's temporary file: among any requests,
      in any order, some run empties the first before its handler has even begun. */
  lemma TargetAsTempFileIsEmptied(d0: Disk, reqs: seq<Request>, h: nat, k: nat)
    requires WellFormed(d0) && h < |reqs| && k < |reqs| && h != k && reqs[h].target.Some? && reqs[k].target.Some?
    requires var q := reqs[k].target.value;
             && reqs[h].target.value == TempPath(q)
             && WithDir(d0, q.dir, reqs[k].mkdir).Some? && !IsDir(d0, TempPath(q))
    ensures exists t :: Reachable(d0, reqs, t) && |t.handlers| == |reqs| && t.handlers[h] == NewHandler(reqs[h])
                        && Content(t.disk, reqs[h].target.value) == Some([])
  {
    var q := reqs[k].target.value;
    var s0 := Initial(d0, reqs);
    assert Exec(s0, []) == Some(s0);
    ReachStep(d0, reqs, s0, Prepare(k, true));
    NewDirsAreElsewhere(d0, q, reqs[k].mkdir);
    hide Reachable, TempPath, WithDir, IsDir, Create;
    var s1 := Apply(s0, Prepare(k, true));
    SameLinksStayInOrder(d0, s1.disk);
    ReachStep(d0, reqs, s1, CreateTemp(k, true));
    CreateFacts(s1.disk, TempPath(q));
    var t := Apply(s1, CreateTemp(k, true));
    assert t.disk == Create(s1.disk, TempPath(q));
  }
}
