/**
 * Writing, syncing and renaming, with a crash allowed between any two steps.  What a crash keeps:
 * the data of a file that was synced, and the directory changes up to some point, in the order
 * they were made.  What a file not synced holds afterwards is anything at all.
 */
module Durable {
  import opened Outcomes

  type Name = nat
  type Inode = nat
  type Content = seq<nat>

  datatype File = File(content: Content, synced: bool)

  /** A directory change that may not have reached the disk yet. */
  datatype Change = Bind(name: Name, inode: Inode) | Drop(name: Name) | Rename(from: Name, to: Name, inode: Inode)

  type Directory = map<Name, Inode>

  datatype State = State(files: map<Inode, File>, names: Directory, durable: Directory, pending: seq<Change>)

  function Applied(directory: Directory, change: Change): Directory {
    match change
    case Bind(name, inode) => directory[name := inode]
    case Drop(name) => directory - {name}
    case Rename(from, to, inode) => (directory - {from})[to := inode]
  }

  function AllApplied(directory: Directory, changes: seq<Change>): Directory {
    if changes == [] then directory
    else Applied(AllApplied(directory, changes[..|changes| - 1]), changes[|changes| - 1])
  }

  /** Every name of the directory is a file. */
  ghost predicate Known(directory: Directory, files: map<Inode, File>) {
    forall name | name in directory :: directory[name] in files
  }

  /** Any state at all that the calls can lead to: what is on disk, and the changes since. */
  ghost predicate WellFormed(s: State) {
    && s.names == AllApplied(s.durable, s.pending)
    && Known(s.names, s.files)
    && Known(s.durable, s.files)
    && (forall change | change in s.pending :: !change.Drop? ==> change.inode in s.files)
  }

  /** The directory a crash may leave: the one on disk, and the first changes since. */
  ghost function CrashNames(s: State, k: nat): Directory
    requires k <= |s.pending|
  {
    AllApplied(s.durable, s.pending[..k])
  }

  /** What the disk may hold after a crash in this state. */
  ghost predicate CrashesTo(s: State, after: map<Name, Content>) {
    exists k | 0 <= k <= |s.pending| :: Survives(s, CrashNames(s, k), after)
  }

  ghost predicate Survives(s: State, names: Directory, after: map<Name, Content>) {
    && after.Keys == names.Keys
    && forall name | name in names :: names[name] in s.files && s.files[names[name]].synced ==>
         after[name] == s.files[names[name]].content
  }

  /** Under this name the directory shows one of these contents, whole and synced, or nothing where that is allowed. */
  ghost predicate Shows(s: State, names: Directory, name: Name, allowed: set<Content>, absent: bool) {
    if name in names then
      names[name] in s.files && s.files[names[name]].synced && s.files[names[name]].content in allowed
    else absent
  }

  /** Whatever a crash keeps, the name holds one of these contents, whole. */
  ghost predicate CrashSafe(s: State, name: Name, allowed: set<Content>, absent: bool) {
    forall k {:trigger CrashNames(s, k)} :: 0 <= k <= |s.pending| ==> Shows(s, CrashNames(s, k), name, allowed, absent)
  }

  /** The check over directories really is one over everything a crash can leave. */
  lemma CrashSafeMeans(s: State, name: Name, allowed: set<Content>, absent: bool, after: map<Name, Content>)
    requires CrashSafe(s, name, allowed, absent) && CrashesTo(s, after)
    ensures if name in after then after[name] in allowed else absent
  {
    var k :| 0 <= k <= |s.pending| && Survives(s, CrashNames(s, k), after);
  }

  /** One more change leaves the directories of the earlier ones as they were. */
  lemma OneMoreChange(s: State, t: State, change: Change, k: nat)
    requires t.durable == s.durable && t.pending == s.pending + [change] && k <= |s.pending|
    ensures CrashNames(t, k) == CrashNames(s, k)
    ensures CrashNames(t, |t.pending|) == Applied(AllApplied(s.durable, s.pending), change)
  {
    assert t.pending[..k] == s.pending[..k];
    assert t.pending[..|t.pending|] == t.pending && t.pending[..|s.pending|] == s.pending;
  }

  lemma CrashSafeGrows(s: State, t: State, change: Change, name: Name, allowed: set<Content>, absent: bool)
    requires WellFormed(s) && CrashSafe(s, name, allowed, absent)
    requires t.durable == s.durable && t.pending == s.pending + [change] && FilesKept(s, t)
    requires Shows(t, Applied(s.names, change), name, allowed, absent)
    ensures CrashSafe(t, name, allowed, absent)
  {
    forall k | 0 <= k <= |t.pending| ensures Shows(t, CrashNames(t, k), name, allowed, absent) {
      if k <= |s.pending| {
        OneMoreChange(s, t, change, k);
        assert Shows(s, CrashNames(s, k), name, allowed, absent);
      } else {
        OneMoreChange(s, t, change, 0);
      }
    }
  }

  /** Every file that was synced still is, with the same content. */
  ghost predicate FilesKept(s: State, t: State) {
    forall i | i in s.files && s.files[i].synced :: i in t.files && t.files[i] == s.files[i]
  }

  lemma CrashSafeStays(s: State, t: State, name: Name, allowed: set<Content>, absent: bool)
    requires CrashSafe(s, name, allowed, absent)
    requires t.durable == s.durable && t.pending == s.pending && FilesKept(s, t)
    ensures CrashSafe(t, name, allowed, absent)
  {
    forall k | 0 <= k <= |t.pending| ensures Shows(t, CrashNames(t, k), name, allowed, absent) {
      assert CrashNames(t, k) == CrashNames(s, k);
    }
  }

  class Volume {
    var now: State
    /** Every state the volume has been in. */
    ghost var trace: seq<State>

    constructor (state: State)
      ensures now == state && trace == [state]
    {
      now, trace := state, [state];
    }

    /** Make an empty file under a name nothing holds. */
    method Create(name: Name) returns (r: Option<Inode>)
      modifies this
      ensures r.None? ==> now == old(now) && trace == old(trace)
      ensures r.Some? ==>
                && name !in old(now).names && r.value !in old(now).files
                && now == State(old(now).files[r.value := File([], false)], old(now).names[name := r.value], old(now).durable,
                                old(now).pending + [Bind(name, r.value)])
                && trace == old(trace) + [now]
    {
      var refused: bool := *;
      if refused || name in now.names {
        return None;
      }
      var inode: nat := *;
      if inode in now.files {
        return None;
      }
      now := State(now.files[inode := File([], false)], now.names[name := inode], now.durable, now.pending + [Bind(name, inode)]);
      trace := trace + [now];
      return Some(inode);
    }

    /** Write a file's content, which until it is synced is on its way only; a refused write leaves part of it. */
    method Write(inode: Inode, content: Content) returns (ok: bool, ghost part: Content)
      requires inode in now.files
      modifies this
      ensures now == old(now).(files := old(now).files[inode := File(part, false)]) && (ok ==> part == content)
      ensures trace == old(trace) + [now]
    {
      ok := *;
      var left: Content := *;
      if ok {
        left := content;
      }
      part := left;
      now := now.(files := now.files[inode := File(left, false)]);
      trace := trace + [now];
    }

    /** `os.fsync` of a file. */
    method Fsync(inode: Inode) returns (ok: bool)
      requires inode in now.files
      modifies this
      ensures now == if ok then old(now).(files := old(now).files[inode := old(now).files[inode].(synced := true)]) else old(now)
      ensures trace == old(trace) + [now]
    {
      ok := *;
      if ok {
        now := now.(files := now.files[inode := now.files[inode].(synced := true)]);
      }
      trace := trace + [now];
    }

    /** `Path.replace`. */
    method Replace(from: Name, to: Name) returns (ok: bool)
      requires from in now.names && from != to
      modifies this
      ensures now == if ok then
                       old(now).(names := (old(now).names - {from})[to := old(now).names[from]],
                                 pending := old(now).pending + [Rename(from, to, old(now).names[from])])
                     else old(now)
      ensures trace == old(trace) + [now]
    {
      ok := *;
      if ok {
        var inode := now.names[from];
        now := now.(names := (now.names - {from})[to := inode], pending := now.pending + [Rename(from, to, inode)]);
      }
      trace := trace + [now];
    }

    /** `os.link`: refuses a name something holds. */
    method Link(from: Name, to: Name) returns (ok: bool)
      requires from in now.names
      modifies this
      ensures ok ==> to !in old(now).names
      ensures now == if ok then
                       old(now).(names := old(now).names[to := old(now).names[from]],
                                 pending := old(now).pending + [Bind(to, old(now).names[from])])
                     else old(now)
      ensures trace == old(trace) + [now]
    {
      ok := *;
      ok := ok && to !in now.names;
      if ok {
        now := now.(names := now.names[to := now.names[from]], pending := now.pending + [Bind(to, now.names[from])]);
      }
      trace := trace + [now];
    }

    method Unlink(name: Name) returns (ok: bool)
      modifies this
      ensures now == if ok then old(now).(names := old(now).names - {name}, pending := old(now).pending + [Drop(name)]) else old(now)
      ensures trace == old(trace) + [now]
    {
      ok := *;
      if ok {
        now := now.(names := now.names - {name}, pending := now.pending + [Drop(name)]);
      }
      trace := trace + [now];
    }

    /** `fsync` of the directory. */
    method FsyncDirectory() returns (ok: bool)
      modifies this
      ensures now == if ok then old(now).(durable := old(now).names, pending := []) else old(now)
      ensures trace == old(trace) + [now]
    {
      ok := *;
      if ok {
        now := now.(durable := now.names, pending := []);
      }
      trace := trace + [now];
    }
  }

  /** What a name may show: these contents, whole, or nothing where that is allowed. */
  datatype Allowed = Allowed(contents: set<Content>, absent: bool)

  ghost predicate AlwaysWhole(s: State, name: Name, allowed: Allowed) {
    Shows(s, s.names, name, allowed.contents, allowed.absent) && CrashSafe(s, name, allowed.contents, allowed.absent)
  }

  /** Whoever looks at one of the names watched, or at the disk after a crash, sees it whole. */
  ghost predicate AllWhole(s: State, watch: map<Name, Allowed>) {
    forall name | name in watch :: AlwaysWhole(s, name, watch[name])
  }

  ghost predicate SafeSince(trace: seq<State>, start: nat, watch: map<Name, Allowed>) {
    forall i {:trigger trace[i]} :: start <= i < |trace| ==> AllWhole(trace[i], watch)
  }

  /** A volume whose every state since some moment is safe for the names watched, this one included. */
  ghost predicate Guarded(v: Volume, start: nat, watch: map<Name, Allowed>)
    reads v
  {
    && WellFormed(v.now)
    && AllWhole(v.now, watch)
    && start <= |v.trace|
    && SafeSince(v.trace, start, watch)
  }

  /** What is crash-safe is also safe to look at, because the directory in use has all changes. */
  lemma LiveView(s: State, name: Name, allowed: Allowed)
    requires WellFormed(s) && CrashSafe(s, name, allowed.contents, allowed.absent)
    ensures AlwaysWhole(s, name, allowed)
  {
    assert s.pending[..|s.pending|] == s.pending;
    assert Shows(s, CrashNames(s, |s.pending|), name, allowed.contents, allowed.absent);
  }

  lemma SafeSinceGrows(trace: seq<State>, start: nat, s: State, watch: map<Name, Allowed>)
    requires start <= |trace| && SafeSince(trace, start, watch) && AllWhole(s, watch)
    ensures SafeSince(trace + [s], start, watch)
  {
    forall i | start <= i < |trace + [s]| ensures AllWhole((trace + [s])[i], watch) {
      if i < |trace| {
        assert AllWhole(trace[i], watch);
      }
    }
  }

  /** One directory change that leaves the names watched as they may be. */
  lemma ChangeKeepsWhole(s: State, t: State, change: Change, watch: map<Name, Allowed>)
    requires WellFormed(s) && AllWhole(s, watch)
    requires t.durable == s.durable && t.pending == s.pending + [change] && t.names == Applied(s.names, change) && FilesKept(s, t)
    requires forall name | name in watch :: Shows(t, t.names, name, watch[name].contents, watch[name].absent)
    ensures AllWhole(t, watch)
  {
    forall name | name in watch ensures AlwaysWhole(t, name, watch[name]) {
      assert AlwaysWhole(s, name, watch[name]);
      CrashSafeGrows(s, t, change, name, watch[name].contents, watch[name].absent);
    }
  }

  /** Writing a file that was not synced changes nothing a name watched may show. */
  lemma WritingKeepsWhole(s: State, t: State, watch: map<Name, Allowed>)
    requires AllWhole(s, watch)
    requires t.durable == s.durable && t.pending == s.pending && t.names == s.names && FilesKept(s, t)
    ensures AllWhole(t, watch)
  {
    forall name | name in watch ensures AlwaysWhole(t, name, watch[name]) {
      assert AlwaysWhole(s, name, watch[name]);
      CrashSafeStays(s, t, name, watch[name].contents, watch[name].absent);
    }
  }

  /** A change to a name nobody watches shows the same under those that are watched. */
  lemma ShowsBeside(s: State, t: State, change: Change, watch: map<Name, Allowed>)
    requires AllWhole(s, watch) && FilesKept(s, t) && t.names == Applied(s.names, change)
    requires (change.Bind? && change.name !in watch) || (change.Drop? && change.name !in watch)
    ensures forall name | name in watch :: Shows(t, t.names, name, watch[name].contents, watch[name].absent)
  {
    forall name | name in watch ensures Shows(t, t.names, name, watch[name].contents, watch[name].absent) {
      assert AlwaysWhole(s, name, watch[name]);
    }
  }

  lemma WellFormedGrows(s: State, t: State, change: Change)
    requires WellFormed(s) && t.durable == s.durable && t.pending == s.pending + [change] && t.names == Applied(s.names, change)
    requires forall i | i in s.files :: i in t.files
    requires !change.Drop? ==> change.inode in t.files
    ensures WellFormed(t)
  {
    assert t.pending[..|s.pending|] == s.pending;
  }

  /** Make a temporary file under a name nothing holds. */
  method CreateTemporary(v: Volume, temp: Name, ghost start: nat, ghost watch: map<Name, Allowed>) returns (inode: Option<Inode>)
    requires Guarded(v, start, watch) && temp !in watch
    modifies v
    ensures Guarded(v, start, watch)
    ensures inode.None? ==> v.now == old(v.now)
    ensures inode.Some? ==>
              && temp !in old(v.now).names && inode.value !in old(v.now).files
              && v.now.files == old(v.now).files[inode.value := File([], false)]
              && v.now.names == old(v.now).names[temp := inode.value]
  {
    ghost var before, trace := v.now, v.trace;
    inode := v.Create(temp);
    if inode.Some? {
      ShowsBeside(before, v.now, Bind(temp, inode.value), watch);
      ChangeKeepsWhole(before, v.now, Bind(temp, inode.value), watch);
      WellFormedGrows(before, v.now, Bind(temp, inode.value));
      SafeSinceGrows(trace, start, v.now, watch);
    }
  }

  /** Write the content and sync it. */
  method WriteAndSync(v: Volume, inode: Inode, content: Content, ghost start: nat, ghost watch: map<Name, Allowed>)
    returns (ok: bool)
    requires Guarded(v, start, watch) && inode in v.now.files && !v.now.files[inode].synced
    modifies v
    ensures Guarded(v, start, watch) && v.now.names == old(v.now).names && inode in v.now.files
    ensures v.now.files == old(v.now).files[inode := v.now.files[inode]]
    ensures ok ==> v.now.files[inode] == File(content, true)
    ensures !ok ==> !v.now.files[inode].synced
  {
    ghost var before := v.now;
    ghost var part;
    ok, part := v.Write(inode, content);
    WritingKeepsWhole(before, v.now, watch);
    SafeSinceGrows(old(v.trace), start, v.now, watch);
    if ok {
      ghost var wrote, trace := v.now, v.trace;
      ok := v.Fsync(inode);
      WritingKeepsWhole(wrote, v.now, watch);
      SafeSinceGrows(trace, start, v.now, watch);
    }
  }

  /** Remove a file under a name nobody watches. */
  method RemoveBeside(v: Volume, other: Name, ghost start: nat, ghost watch: map<Name, Allowed>) returns (ok: bool)
    requires Guarded(v, start, watch) && other !in watch
    modifies v
    ensures Guarded(v, start, watch) && v.now.files == old(v.now).files
    ensures v.now.names == if ok then old(v.now).names - {other} else old(v.now).names
  {
    ghost var before := v.now;
    ok := v.Unlink(other);
    if ok {
      ShowsBeside(before, v.now, Drop(other), watch);
      ChangeKeepsWhole(before, v.now, Drop(other), watch);
      WellFormedGrows(before, v.now, Drop(other));
    }
    SafeSinceGrows(old(v.trace), start, v.now, watch);
  }

  /** Put a whole, synced file in a name's place, which may show its content if it is watched. */
  method ReplaceWith(v: Volume, temp: Name, name: Name, ghost start: nat, ghost watch: map<Name, Allowed>) returns (ok: bool)
    requires Guarded(v, start, watch) && name != temp && temp in v.now.names && temp !in watch
    requires v.now.files[v.now.names[temp]].synced
    requires name in watch ==> v.now.files[v.now.names[temp]].content in watch[name].contents
    modifies v
    ensures Guarded(v, start, watch) && v.now.files == old(v.now).files
    ensures v.now.names == if ok then (old(v.now).names - {temp})[name := old(v.now).names[temp]] else old(v.now).names
  {
    ghost var before := v.now;
    ok := v.Replace(temp, name);
    if ok {
      ghost var change := Rename(temp, name, before.names[temp]);
      forall w | w in watch ensures Shows(v.now, v.now.names, w, watch[w].contents, watch[w].absent) {
        assert AlwaysWhole(before, w, watch[w]);
      }
      ChangeKeepsWhole(before, v.now, change, watch);
      WellFormedGrows(before, v.now, change);
    }
    SafeSinceGrows(old(v.trace), start, v.now, watch);
  }

  /** The content under a name, when there is a file. */
  ghost function ContentAt(s: State, name: Name): Option<Content>
    requires WellFormed(s)
  {
    if name in s.names then Some(s.files[s.names[name]].content) else None
  }

  /** The names watched may show what they may, and this one the new text too. */
  ghost predicate Admits(watch: map<Name, Allowed>, name: Name, content: Content) {
    name in watch && content in watch[name].contents
  }

  /**
   * The write both protocols share: a temporary file, synced before it takes the name in one
   * rename.  Whatever the volume went through before, and whatever is on its way to the disk: if
   * a name may only show some contents, the new one among them, it does so in every state on the
   * way, and after a crash in any of them, and so does every other name watched.  A failure
   * leaves the old content, and no temporary file unless removing it fails too.
   */
  method ReplaceWhole(v: Volume, temp: Name, name: Name, content: Content, ghost start: nat, ghost watch: map<Name, Allowed>)
    returns (ok: bool)
    requires Guarded(v, start, watch) && Admits(watch, name, content) && name != temp && temp !in watch
    modifies v
    ensures Guarded(v, start, watch)
    ensures ok ==> v.now.names.Keys == old(v.now).names.Keys + {name} && ContentAt(v.now, name) == Some(content)
    ensures ok ==> v.now.files[v.now.names[name]].synced
    ensures !ok ==> ContentAt(v.now, name) == ContentAt(old(v.now), name)
    ensures forall n | n in old(v.now).names && n != name :: ContentAt(v.now, n) == ContentAt(old(v.now), n)
    ensures temp in old(v.now).names ==> !ok && v.now == old(v.now)
  {
    var inode := CreateTemporary(v, temp, start, watch);
    if inode.None? {
      return false;
    }
    ok := WriteAndSync(v, inode.value, content, start, watch);
    if ok {
      ok := ReplaceWith(v, temp, name, start, watch);
    }
    if !ok {
      var _ := RemoveBeside(v, temp, start, watch);
    }
  }

  /**
   * `replace_file_atomically`: the config file's new text, and then its directory synced if that
   * can be done, after which a crash can no longer bring the old text back.
   */
  method ReplaceFileAtomically(v: Volume, temp: Name, target: Name, text: Content, ghost shown: Allowed)
    returns (ok: bool, synced: bool)
    requires WellFormed(v.now) && CrashSafe(v.now, target, shown.contents, shown.absent) && target != temp
    modifies v
    ensures SafeSince(v.trace, |old(v.trace)|, map[target := Allowed(shown.contents + {text}, shown.absent)])
    ensures WellFormed(v.now) && ContentAt(v.now, target) == if ok then Some(text) else ContentAt(old(v.now), target)
    ensures ok && synced ==> v.now.pending == [] && CrashSafe(v.now, target, {text}, false)
  {
    synced := false;
    ghost var watch, start := map[target := Allowed(shown.contents + {text}, shown.absent)], |v.trace|;
    MayShowMore(v.now, target, shown, watch[target]);
    ok := ReplaceWhole(v, temp, target, text, start, watch);
    if ok {
      ghost var replaced, trace := v.now, v.trace;
      synced := v.FsyncDirectory();
      Settled(replaced, v.now, target, text, watch);
      SafeSinceGrows(trace, start, v.now, watch);
    }
  }

  lemma MayShowMore(s: State, name: Name, fewer: Allowed, more: Allowed)
    requires WellFormed(s) && CrashSafe(s, name, fewer.contents, fewer.absent)
    requires fewer.contents <= more.contents && (fewer.absent ==> more.absent)
    ensures AlwaysWhole(s, name, more)
  {
    forall k | 0 <= k <= |s.pending| ensures Shows(s, CrashNames(s, k), name, more.contents, more.absent) {
      assert Shows(s, CrashNames(s, k), name, fewer.contents, fewer.absent);
    }
    LiveView(s, name, more);
  }

  /** Once the directory is synced only the new text is left. */
  lemma Settled(s: State, t: State, name: Name, content: Content, watch: map<Name, Allowed>)
    requires WellFormed(s) && AllWhole(s, watch)
    requires name in s.names && s.files[s.names[name]] == File(content, true)
    requires t == s || t == s.(durable := s.names, pending := [])
    ensures WellFormed(t) && AllWhole(t, watch)
    ensures t.pending == [] ==> CrashSafe(t, name, {content}, false)
  {
    if t.pending == [] {
      assert CrashNames(t, 0) == t.durable == s.names by {
        assert t.pending[..0] == [];
      }
      forall n | n in watch ensures AlwaysWhole(t, n, watch[n]) {
        assert AlwaysWhole(s, n, watch[n]);
      }
    }
  }

  /** One PDF for the consume folder: the hidden name it is staged under, its final name, and what it holds. */
  datatype Delivery = Delivery(staged: Name, final: Name, pdf: Content)

  /**
   * `_deliver_to_consume_dir`: the same protocol into the consume folder, whose directory is not
   * synced.  Whoever watches the folder, at any moment and after any crash, never finds part of
   * the PDF under its final name.
   */
  method DeliverToConsumeFolder(v: Volume, delivery: Delivery, ghost start: nat, ghost watch: map<Name, Allowed>) returns (ok: bool)
    requires Guarded(v, start, watch) && Admits(watch, delivery.final, delivery.pdf)
    requires delivery.final != delivery.staged && delivery.staged !in watch
    modifies v
    ensures Guarded(v, start, watch)
    ensures ContentAt(v.now, delivery.final) == if ok then Some(delivery.pdf) else ContentAt(old(v.now), delivery.final)
    ensures forall n | n in old(v.now).names && n != delivery.final :: ContentAt(v.now, n) == ContentAt(old(v.now), n)
  {
    ok := ReplaceWhole(v, delivery.staged, delivery.final, delivery.pdf, start, watch);
  }

  /** Each delivery has names of its own. */
  ghost predicate NamesApart(deliveries: seq<Delivery>) {
    && (forall i, j :: 0 <= i < |deliveries| && 0 <= j < |deliveries| ==> deliveries[i].staged != deliveries[j].final)
    && (forall i, j :: 0 <= i < j < |deliveries| ==> deliveries[i].final != deliveries[j].final)
  }

  /** Each final name shows its own PDF, whole, or is not there. */
  ghost function OwnPdfs(deliveries: seq<Delivery>): map<Name, Allowed> {
    if deliveries == [] then map[]
    else
      var last := deliveries[|deliveries| - 1];
      OwnPdfs(deliveries[..|deliveries| - 1])[last.final := Allowed({last.pdf}, true)]
  }

  lemma {:induction false} OwnPdfsAre(deliveries: seq<Delivery>)
    requires NamesApart(deliveries)
    ensures forall i :: 0 <= i < |deliveries| ==>
              deliveries[i].final in OwnPdfs(deliveries)
              && OwnPdfs(deliveries)[deliveries[i].final] == Allowed({deliveries[i].pdf}, true)
    ensures forall name | name in OwnPdfs(deliveries) :: exists i :: 0 <= i < |deliveries| && deliveries[i].final == name
  {
    if deliveries != [] {
      var fewer := deliveries[..|deliveries| - 1];
      OwnPdfsAre(fewer);
      forall name | name in OwnPdfs(deliveries) ensures exists i :: 0 <= i < |deliveries| && deliveries[i].final == name {
        if name in OwnPdfs(fewer) {
          var i :| 0 <= i < |fewer| && fewer[i].final == name;
          assert deliveries[i].final == name;
        } else {
          assert deliveries[|deliveries| - 1].final == name;
        }
      }
    }
  }

  /** The name was never there, as far as the disk may go back. */
  ghost predicate NeverThere(s: State, name: Name) {
    CrashSafe(s, name, {}, true)
  }

  /**
   * Any number of deliveries into one folder, none of which waits for the directory: in every
   * state, and after a crash in any of them, each final name holds its own PDF whole, or is not
   * there.
   */
  method DeliverAll(v: Volume, deliveries: seq<Delivery>) returns (done: seq<bool>)
    requires WellFormed(v.now) && NamesApart(deliveries)
    requires forall i :: 0 <= i < |deliveries| ==> NeverThere(v.now, deliveries[i].final)
    modifies v
    ensures Guarded(v, |old(v.trace)|, OwnPdfs(deliveries))
    ensures |done| == |deliveries|
    ensures forall i :: 0 <= i < |done| && done[i] ==> ContentAt(v.now, deliveries[i].final) == Some(deliveries[i].pdf)
  {
    ghost var start, watch := |v.trace|, OwnPdfs(deliveries);
    OwnPdfsAre(deliveries);
    forall name | name in watch ensures AlwaysWhole(v.now, name, watch[name]) {
      MayShowMore(v.now, name, Allowed({}, true), watch[name]);
    }
    done := [];
    while |done| < |deliveries|
      invariant |done| <= |deliveries| && Guarded(v, start, watch)
      invariant forall i :: 0 <= i < |done| && done[i] ==> ContentAt(v.now, deliveries[i].final) == Some(deliveries[i].pdf)
    {
      var ok := DeliverToConsumeFolder(v, deliveries[|done|], start, watch);
      done := done + [ok];
    }
  }

  /** The directory has the whole content under this name. */
  ghost predicate Whole(s: State, names: Directory, name: Name, content: Content) {
    name in names && names[name] in s.files && s.files[names[name]] == File(content, true)
  }

  /** Whatever a crash keeps, one of the two names has the whole content. */
  ghost predicate KeepsACopy(s: State, a: Name, b: Name, content: Content) {
    forall k {:trigger CrashNames(s, k)} :: 0 <= k <= |s.pending| ==>
      Whole(s, CrashNames(s, k), a, content) || Whole(s, CrashNames(s, k), b, content)
  }

  ghost predicate Has(after: map<Name, Content>, name: Name, content: Content) {
    name in after && after[name] == content
  }

  /** The check over directories is, both ways, one over everything a crash can leave. */
  lemma KeepsACopyMeans(s: State, a: Name, b: Name, content: Content)
    requires WellFormed(s)
    ensures KeepsACopy(s, a, b, content) <==> forall after | CrashesTo(s, after) :: Has(after, a, content) || Has(after, b, content)
  {
    if KeepsACopy(s, a, b, content) {
      forall after | CrashesTo(s, after) ensures Has(after, a, content) || Has(after, b, content) {
        var k :| 0 <= k <= |s.pending| && Survives(s, CrashNames(s, k), after);
        assert Whole(s, CrashNames(s, k), a, content) || Whole(s, CrashNames(s, k), b, content);
      }
    } else {
      var k :| 0 <= k <= |s.pending|
        && !Whole(s, CrashNames(s, k), a, content) && !Whole(s, CrashNames(s, k), b, content);
      var after := WorstCrash(s, k, a, b, content);
      assert CrashesTo(s, after);
    }
  }

  /** A crash after which what was never synced comes back as something else. */
  lemma WorstCrash(s: State, k: nat, a: Name, b: Name, content: Content) returns (after: map<Name, Content>)
    requires WellFormed(s) && k <= |s.pending|
    requires !Whole(s, CrashNames(s, k), a, content) && !Whole(s, CrashNames(s, k), b, content)
    ensures Survives(s, CrashNames(s, k), after) && !Has(after, a, content) && !Has(after, b, content)
  {
    var names := CrashNames(s, k);
    CrashKnown(s, k);
    assert |content + [0]| != |content|;
    after := map name | name in names :: if s.files[names[name]].synced then s.files[names[name]].content else content + [0];
  }

  /** Whatever a crash keeps of the directory, its names are files. */
  lemma {:induction false} AppliedKnown(directory: Directory, changes: seq<Change>, files: map<Inode, File>)
    requires Known(directory, files) && forall change | change in changes :: !change.Drop? ==> change.inode in files
    ensures Known(AllApplied(directory, changes), files)
  {
    if changes != [] {
      AppliedKnown(directory, changes[..|changes| - 1], files);
      assert changes[|changes| - 1] in changes;
    }
  }

  lemma CrashKnown(s: State, k: nat)
    requires WellFormed(s) && k <= |s.pending|
    ensures Known(CrashNames(s, k), s.files)
  {
    AppliedKnown(s.durable, s.pending[..k], s.files);
  }

  /** What a move is made of: the volume before it, the two names, and what the source holds. */
  datatype Move = Move(before: State, source: Name, destination: Name, content: Content)

  /** The source is there and holds the content, the destination is not. */
  ghost predicate CanMove(m: Move) {
    && WellFormed(m.before) && m.source in m.before.names && m.source != m.destination
    && m.destination !in m.before.names
    && m.before.files[m.before.names[m.source]].content == m.content
  }

  /** Nothing of the volume before is undone: its files and what is on its way to the disk. */
  ghost predicate Extends(before: State, s: State) {
    && WellFormed(s)
    && s.durable == before.durable
    && before.pending <= s.pending
    && forall i | i in before.files :: i in s.files && s.files[i] == before.files[i]
  }

  /** A moment of a move: the content is there to be read, and if a crash was no danger before it is none now. */
  ghost predicate Fine(m: Move, s: State) {
    && Extends(m.before, s)
    && (ContentAt(s, m.source) == Some(m.content) || ContentAt(s, m.destination) == Some(m.content))
    && (KeepsACopy(m.before, m.source, m.destination, m.content) ==> KeepsACopy(s, m.source, m.destination, m.content))
  }

  /** A move under way, the source still in place. */
  ghost predicate Moving(v: Volume, m: Move, start: nat)
    reads v
  {
    && CanMove(m) && Fine(m, v.now)
    && m.source in v.now.names && v.now.names[m.source] == m.before.names[m.source]
    && start <= |v.trace| && FineSince(v.trace, start, m)
  }

  ghost predicate FineSince(trace: seq<State>, start: nat, m: Move) {
    forall i {:trigger trace[i]} :: start <= i < |trace| ==> Fine(m, trace[i])
  }

  lemma FineSinceGrows(trace: seq<State>, start: nat, s: State, m: Move)
    requires start <= |trace| && FineSince(trace, start, m) && Fine(m, s)
    ensures FineSince(trace + [s], start, m)
  {
    forall i | start <= i < |trace + [s]| ensures Fine(m, (trace + [s])[i]) {
      if i < |trace| {
        assert Fine(m, trace[i]);
      }
    }
  }

  /** If a crash was no danger before the move, the source was synced. */
  lemma SafeSourceIsSynced(m: Move)
    requires CanMove(m) && KeepsACopy(m.before, m.source, m.destination, m.content)
    ensures m.before.files[m.before.names[m.source]] == File(m.content, true)
  {
    var s := m.before;
    assert s.pending[..|s.pending|] == s.pending && CrashNames(s, |s.pending|) == s.names;
    assert Whole(s, CrashNames(s, |s.pending|), m.source, m.content) || Whole(s, CrashNames(s, |s.pending|), m.destination, m.content);
  }

  /** A directory change of a move, after which one of the names has the content, whole if it was. */
  lemma ChangeIsFine(m: Move, s: State, t: State, change: Change)
    requires CanMove(m) && Fine(m, s)
    requires t.durable == s.durable && t.pending == s.pending + [change] && t.names == Applied(s.names, change)
    requires forall i | i in s.files :: i in t.files && t.files[i] == s.files[i]
    requires !change.Drop? ==> change.inode in t.files
    requires
      || (m.source in t.names && t.names[m.source] == m.before.names[m.source])
      || Whole(t, t.names, m.destination, m.content)
      || (m.destination in t.names && t.names[m.destination] == m.before.names[m.source])
    ensures Fine(m, t)
  {
    WellFormedGrows(s, t, change);
    var i := m.before.names[m.source];
    assert t.files[i] == s.files[i] == m.before.files[i];
    if KeepsACopy(m.before, m.source, m.destination, m.content) {
      SafeSourceIsSynced(m);
      forall k | 0 <= k <= |t.pending|
        ensures Whole(t, CrashNames(t, k), m.source, m.content) || Whole(t, CrashNames(t, k), m.destination, m.content)
      {
        if k <= |s.pending| {
          OneMoreChange(s, t, change, k);
          assert Whole(s, CrashNames(s, k), m.source, m.content) || Whole(s, CrashNames(s, k), m.destination, m.content);
        } else {
          OneMoreChange(s, t, change, 0);
        }
      }
    }
  }

  /** Writing the copy touches no file of the volume before. */
  lemma WritingIsFine(m: Move, s: State, t: State, inode: Inode)
    requires CanMove(m) && Fine(m, s) && inode in s.files && inode !in m.before.files && !s.files[inode].synced
    requires m.source in s.names && s.names[m.source] == m.before.names[m.source]
    requires inode in t.files && t == s.(files := s.files[inode := t.files[inode]])
    ensures Fine(m, t)
  {
    if KeepsACopy(m.before, m.source, m.destination, m.content) {
      forall k | 0 <= k <= |t.pending|
        ensures Whole(t, CrashNames(t, k), m.source, m.content) || Whole(t, CrashNames(t, k), m.destination, m.content)
      {
        assert CrashNames(t, k) == CrashNames(s, k);
        assert Whole(s, CrashNames(s, k), m.source, m.content) || Whole(s, CrashNames(s, k), m.destination, m.content);
      }
    }
  }

  /** A move takes no danger away either: what a crash could lose before it, it still can. */
  lemma DangerStays(m: Move, s: State)
    requires WellFormed(m.before) && Extends(m.before, s) && KeepsACopy(s, m.source, m.destination, m.content)
    ensures KeepsACopy(m.before, m.source, m.destination, m.content)
  {
    forall k | 0 <= k <= |m.before.pending|
      ensures Whole(m.before, CrashNames(m.before, k), m.source, m.content)
              || Whole(m.before, CrashNames(m.before, k), m.destination, m.content)
    {
      assert s.pending[..k] == m.before.pending[..k];
      CrashKnown(m.before, k);
      assert Whole(s, CrashNames(s, k), m.source, m.content) || Whole(s, CrashNames(s, k), m.destination, m.content);
    }
  }

  datatype Moved = WasMoved | WasTaken | WasRefused

  /** `os.link` to a name nothing holds. */
  method LinkInto(v: Volume, source: Name, destination: Name, ghost m: Move, ghost start: nat) returns (linked: bool)
    requires m.source == source && m.destination == destination
    requires Moving(v, m, start) && v.now == m.before
    modifies v
    ensures Moving(v, m, start) && v.now.files == m.before.files
    ensures linked ==> destination in v.now.names && v.now.names[destination] == m.before.names[source]
                       && v.now.pending == m.before.pending + [Bind(destination, m.before.names[source])]
    ensures !linked ==> v.now == m.before
  {
    linked := v.Link(source, destination);
    if linked {
      ChangeIsFine(m, m.before, v.now, Bind(destination, m.before.names[source]));
    }
    FineSinceGrows(old(v.trace), start, v.now, m);
  }

  /** The copy into a file created exclusively; a failed copy is removed. */
  method CopyInto(v: Volume, source: Name, destination: Name, ghost m: Move, ghost start: nat) returns (copied: bool)
    requires m.source == source && m.destination == destination
    requires Moving(v, m, start) && v.now == m.before
    modifies v
    ensures Moving(v, m, start)
    ensures copied ==> Whole(v.now, v.now.names, destination, m.content)
  {
    var content := v.now.files[v.now.names[source]].content;
    ghost var trace := v.trace;
    var inode := v.Create(destination);
    if inode.None? {
      return false;
    }
    ChangeIsFine(m, m.before, v.now, Bind(destination, inode.value));
    FineSinceGrows(trace, start, v.now, m);
    copied := WriteCopy(v, inode.value, content, m, start);
    if !copied {
      DropCopy(v, destination, m, start);
    }
  }

  /** Write the copy and sync it. */
  method WriteCopy(v: Volume, inode: Inode, content: Content, ghost m: Move, ghost start: nat) returns (ok: bool)
    requires Moving(v, m, start)
    requires inode in v.now.files && inode !in m.before.files && !v.now.files[inode].synced
    modifies v
    ensures Moving(v, m, start) && v.now.names == old(v.now).names
    ensures ok ==> inode in v.now.files && v.now.files[inode] == File(content, true)
  {
    ghost var before, trace, part := v.now, v.trace, [];
    ok, part := v.Write(inode, content);
    WritingIsFine(m, before, v.now, inode);
    FineSinceGrows(trace, start, v.now, m);
    if ok {
      before, trace := v.now, v.trace;
      ok := v.Fsync(inode);
      WritingIsFine(m, before, v.now, inode);
      FineSinceGrows(trace, start, v.now, m);
    }
  }

  method DropCopy(v: Volume, destination: Name, ghost m: Move, ghost start: nat)
    requires m.destination == destination && Moving(v, m, start)
    modifies v
    ensures Moving(v, m, start)
  {
    ghost var before, trace := v.now, v.trace;
    var removed := v.Unlink(destination);
    if removed {
      ChangeIsFine(m, before, v.now, Drop(destination));
    }
    FineSinceGrows(trace, start, v.now, m);
  }

  /** `_remove_moved_source`, once the destination has the content; a source that stays is a spare copy. */
  method RemoveSource(v: Volume, source: Name, ghost m: Move, ghost start: nat)
    requires m.source == source && Moving(v, m, start)
    requires m.destination in v.now.names
    requires v.now.names[m.destination] == m.before.names[source] || Whole(v.now, v.now.names, m.destination, m.content)
    modifies v
    ensures Fine(m, v.now) && start <= |v.trace| && FineSince(v.trace, start, m)
    ensures v.now.files == old(v.now).files && m.destination in v.now.names
    ensures v.now.names[m.destination] == old(v.now).names[m.destination]
    ensures source !in v.now.names ==> v.now.pending == old(v.now).pending + [Drop(source)]
  {
    ghost var before, trace := v.now, v.trace;
    var removed := v.Unlink(source);
    if removed {
      ChangeIsFine(m, before, v.now, Drop(source));
    }
    FineSinceGrows(trace, start, v.now, m);
  }

  /**
   * `move_private`: a hard link, or where none can be made a synced copy under a name nothing
   * holds, and only then the removal of the source.  A file at the destination is never touched,
   * and at every moment one of the two names has the content.  A whole copy survives every crash
   * exactly when it did before the call: on neither route is a source that was never synced made
   * safe by being moved, because a crash can still go back to it.
   */
  method MovePrivate(v: Volume, source: Name, destination: Name) returns (r: Moved, ghost copied: bool)
    requires WellFormed(v.now) && source in v.now.names && source != destination
    modifies v
    ensures WellFormed(v.now) && |old(v.trace)| <= |v.trace|
    ensures destination in old(v.now).names ==> r == WasTaken && v.now == old(v.now)
    ensures
      var m := MoveOf(old(v.now), source, destination);
      && (destination !in old(v.now).names ==> FineSince(v.trace, |old(v.trace)|, m))
      && (KeepsACopy(v.now, source, destination, m.content) <==> KeepsACopy(old(v.now), source, destination, m.content))
      && (r == WasMoved ==> ContentAt(v.now, destination) == Some(m.content))
      && (r == WasMoved ==>
            (Whole(v.now, v.now.names, destination, m.content) <==> copied || old(v.now).files[old(v.now).names[source]].synced))
      && (r != WasMoved ==> ContentAt(v.now, source) == Some(m.content))
    ensures r == WasMoved && source !in v.now.names && destination !in old(v.now).durable ==>
              OutOfOrderLosesBoth(old(v.now).durable, v.now.pending, source, destination)
  {
    ghost var m, start := MoveOf(v.now, source, destination), |v.trace|;
    copied := false;
    if destination in v.now.names {
      var refused := v.Link(source, destination);
      return WasTaken, copied;
    }
    var linked := LinkInto(v, source, destination, m, start);
    var linkable: bool := *;
    if linked {
      RemoveSource(v, source, m, start);
      r := WasMoved;
    } else if linkable {
      r := WasRefused;
    } else {
      var whole := CopyInto(v, source, destination, m, start);
      copied := whole;
      if whole {
        RemoveSource(v, source, m, start);
      }
      r := if whole then WasMoved else WasRefused;
    }
    if KeepsACopy(v.now, source, destination, m.content) {
      DangerStays(m, v.now);
    }
  }

  ghost function MoveOf(before: State, source: Name, destination: Name): Move
    requires WellFormed(before) && source in before.names
  {
    Move(before, source, destination, before.files[before.names[source]].content)
  }

  /**
   * The limit of the move: it rests on directory changes reaching the disk in order.  Were the
   * removal of the source, its last change, to reach it alone, neither name would be left.
   */
  ghost predicate OutOfOrderLosesBoth(durable: Directory, pending: seq<Change>, source: Name, destination: Name) {
    && pending != []
    && var alone := Applied(durable, pending[|pending| - 1]);
       source !in alone && destination !in alone
  }

  /**
   * With nothing on its way to the disk before it, a move to a free name leaves a whole copy
   * after every crash exactly when the source was synced before.
   */
  lemma SafeExactlyWhenSynced(before: State, source: Name, destination: Name)
    requires WellFormed(before) && before.pending == []
    requires source in before.names && destination !in before.names
    ensures var content := MoveOf(before, source, destination).content;
            KeepsACopy(before, source, destination, content) <==> before.files[before.names[source]].synced
  {
    assert before.pending[..0] == [] && CrashNames(before, 0) == before.names;
    if before.files[before.names[source]].synced {
      forall k | 0 <= k <= |before.pending|
        ensures Whole(before, CrashNames(before, k), source, MoveOf(before, source, destination).content)
      {
      }
    } else {
      assert !Whole(before, CrashNames(before, 0), source, MoveOf(before, source, destination).content);
    }
  }

  /**
   * A page file is never synced.  Linked into its new place and removed from the old one, a
   * crash can leave anything at all under its new name.
   */
  lemma UnsyncedCanBeLost(content: Content, other: Content)
    ensures
      var before := State(map[1 := File(content, false)], map[7 := 1], map[7 := 1], []);
      var moved := State(before.files, map[8 := 1], before.durable, [Bind(8, 1), Drop(7)]);
      && WellFormed(before) && ContentAt(before, 7) == Some(content)
      && WellFormed(moved) && ContentAt(moved, 8) == Some(content) && 7 !in moved.names
      && CrashesTo(moved, map[8 := other])
  {
    var before := State(map[1 := File(content, false)], map[7 := 1], map[7 := 1], []);
    var moved := State(before.files, map[8 := 1], before.durable, [Bind(8, 1), Drop(7)]);
    var pending := moved.pending;
    assert pending[..2] == pending && pending[..1] == [Bind(8, 1)] && pending[..1][..0] == [];
    assert AllApplied(moved.durable, []) == map[7 := 1];
    assert AllApplied(moved.durable, pending[..1]) == map[7 := 1][8 := 1];
    assert AllApplied(moved.durable, pending) == map[7 := 1][8 := 1] - {7} == map[8 := 1];
    assert CrashNames(moved, 2) == map[8 := 1];
    assert Survives(moved, CrashNames(moved, 2), map[8 := other]);
  }
}
