/** The log tailer (adapters/log_adapter.py): `--watch PATH:LABEL`
    arguments, the counters the workers share, and each worker's poll
    loop, which follows one path through appends, rotation and deletion
    and publishes every new line. The files are an abstract disk: paths
    name inodes, and an inode holds text that only grows. Threads, the
    lock, the health printer and the sleeps themselves are not part of
    this model; each poll step reports how long it would pause. */
module LogAdapter {
  import opened Wrappers
  import opened Text
  import opened Json
  import opened Counting

  // ---------------------------------------------------------------------
  // --watch arguments
  // ---------------------------------------------------------------------

  /** `w.split(":", 1)` when `":" in w`: the path before the first colon
      and the label after it (the label may contain further colons). */
  function SplitWatch(w: string): (r: Option<(string, string)>)
    ensures r.None? <==> ':' !in w
    ensures r.Some? ==> ':' !in r.value.0 && w == r.value.0 + ":" + r.value.1
  {
    var i := Run(w, 0, c => c != ':');
    if i == |w| then
      assert forall j :: 0 <= j < |w| ==> w[j] != ':';
      None
    else
      assert w == w[..i] + ":" + w[i + 1..];
      Some((w[..i], w[i + 1..]))
  }

  /** How `main` gets past its arguments: it exits (argparse with status 2
      when no `--watch` is given, `sys.exit(1)` on a value without a
      colon) or goes on with the (path, label) pairs. */
  datatype Startup = Exit(code: int) | Watching(watches: seq<(string, string)>)

  /** The `--watch` loop of `main`. */
  method ParseWatches(args: seq<string>) returns (r: Startup)
    ensures |args| == 0 ==> r == Exit(2)
    ensures |args| > 0 && (exists k :: 0 <= k < |args| && ':' !in args[k]) ==> r == Exit(1)
    ensures r.Watching? <==> |args| > 0 && forall k :: 0 <= k < |args| ==> ':' in args[k]
    ensures r.Watching? ==>
              |r.watches| == |args| && forall k :: 0 <= k < |args| ==> SplitWatch(args[k]) == Some(r.watches[k])
  {
    if |args| == 0 {
      return Exit(2);
    }
    var watches: seq<(string, string)> := [];
    var i := 0;
    while i < |args|
      invariant 0 <= i <= |args|
      invariant |watches| == i
      invariant forall k :: 0 <= k < i ==> ':' in args[k] && SplitWatch(args[k]) == Some(watches[k])
    {
      var split := SplitWatch(args[i]);
      if split.None? {
        return Exit(1);
      }
      watches := watches + [split.value];
      i := i + 1;
    }
    r := Watching(watches);
  }

  // ---------------------------------------------------------------------
  // The shared counters
  // ---------------------------------------------------------------------

  /** The `stats` dict every worker holds: "count" and "per_source". */
  class SharedStats {
    var count: nat
    var perSource: map<string, nat>

    /** `count` is the sum of the per-source counts. */
    ghost predicate Valid()
      reads this
    {
      Sum(perSource) == count
    }

    constructor ()
      ensures count == 0 && perSource == map[]
      ensures Valid()
    {
      count := 0;
      perSource := map[];
    }

    /** `stats_increment()` for a worker labelled `source`. */
    method Increment(source: string)
      requires Valid()
      modifies this
      ensures count == old(count) + 1
      ensures perSource == Bump(old(perSource), source)
      ensures Valid()
    {
      BumpSum(perSource, source);
      count := count + 1;
      if source !in perSource {
        perSource := perSource[source := 0];
      }
      perSource := perSource[source := perSource[source] + 1];
    }
  }

  // ---------------------------------------------------------------------
  // The disk
  // ---------------------------------------------------------------------

  /** Paths naming inodes, and the text each inode holds. An inode keeps
      its text after its path is gone, as an open handle does. */
  datatype Disk = Disk(names: map<string, nat>, contents: map<nat, string>)

  predicate DiskOk(d: Disk) {
    forall p :: p in d.names ==> d.names[p] in d.contents
  }

  /** `d2` is `d1` later on: no inode disappears and each one only has
      text appended. */
  predicate Grows(d1: Disk, d2: Disk) {
    forall i :: i in d1.contents ==>
      i in d2.contents && |d1.contents[i]| <= |d2.contents[i]| && d2.contents[i][..|d1.contents[i]|] == d1.contents[i]
  }

  /** A writer appends `text` to the file at `path`. */
  function Append(d: Disk, path: string, text: string): (r: Disk)
    requires DiskOk(d) && path in d.names
    ensures DiskOk(r) && Grows(d, r) && r.names == d.names
  {
    var i := d.names[path];
    var r := d.(contents := d.contents[i := d.contents[i] + text]);
    assert (d.contents[i] + text)[..|d.contents[i]|] == d.contents[i];
    r
  }

  /** Rotation: the old file is renamed away and an empty file with an
      unused inode takes its path. */
  function Rotate(d: Disk, path: string, newInode: nat): (r: Disk)
    requires DiskOk(d) && newInode !in d.contents
    ensures DiskOk(r) && Grows(d, r) && path in r.names && r.names[path] == newInode && r.contents[newInode] == []
  {
    Disk(d.names[path := newInode], d.contents[newInode := []])
  }

  /** The file at `path` is removed. */
  function Remove(d: Disk, path: string): (r: Disk)
    requires DiskOk(d)
    ensures DiskOk(r) && Grows(d, r) && path !in r.names
  {
    Disk(d.names - {path}, d.contents)
  }

  // ---------------------------------------------------------------------
  // Reading
  // ---------------------------------------------------------------------

  /** An open file: its inode, the read position, and the position it
      was opened at (the file's length then). */
  datatype Handle = Handle(inode: nat, pos: nat, openedAt: nat)

  /** The handle reads text that exists, from no earlier than where it
      was opened. */
  predicate HandleOk(f: Option<Handle>, d: Disk) {
    f.Some? ==> f.value.inode in d.contents && f.value.openedAt <= f.value.pos <= |d.contents[f.value.inode]|
  }

  /** A later disk keeps every handle readable, with the text before the
      opening position unchanged. */
  lemma HandleOkLater(f: Option<Handle>, d1: Disk, d2: Disk)
    requires HandleOk(f, d1) && Grows(d1, d2)
    ensures HandleOk(f, d2)
    ensures f.Some? ==> d2.contents[f.value.inode][..f.value.openedAt] == d1.contents[f.value.inode][..f.value.openedAt]
  {
    if f.Some? {
      var c1, c2 := d1.contents[f.value.inode], d2.contents[f.value.inode];
      assert c2[..f.value.openedAt] == c2[..|c1|][..f.value.openedAt];
    }
  }

  /** `open_file()`: a handle at the end of the file and its inode, or
      (None, None) when the path does not exist. */
  function OpenFile(d: Disk, path: string): (r: (Option<Handle>, Option<nat>))
    requires DiskOk(d)
    ensures path !in d.names ==> r == (None, None)
    ensures path in d.names ==>
              var i := d.names[path];
              r == (Some(Handle(i, |d.contents[i]|, |d.contents[i]|)), Some(i))
    ensures HandleOk(r.0, d)
  {
    if path in d.names then
      var i := d.names[path];
      (Some(Handle(i, |d.contents[i]|, |d.contents[i]|)), Some(i))
    else (None, None)
  }

  /** `f.readline()` at `pos`: the text up to and including the next line
      break, or to the end when there is none (a line still being
      written), and the new position. */
  function ReadLine(content: string, pos: nat): (r: (string, nat))
    requires pos <= |content|
    ensures pos <= r.1 <= |content| && r.0 == content[pos..r.1]
    ensures r.0 == [] <==> pos == |content|
    ensures forall j :: 0 <= j < |r.0| - 1 ==> r.0[j] != '\n'
    ensures r.1 == |content| || content[r.1 - 1] == '\n'
  {
    var rest := content[pos..];
    var e := LineEnd(rest);
    var n := if e < |rest| then e + 1 else e;
    (rest[..n], pos + n)
  }

  /** `line.rstrip("\n")`. */
  function StripNewlines(s: string): (r: string)
    ensures |r| <= |s| && r == s[..|r|]
    ensures r == [] || r[|r| - 1] != '\n'
    ensures forall j :: |r| <= j < |s| ==> s[j] == '\n'
  {
    if s != [] && s[|s| - 1] == '\n' then StripNewlines(s[..|s| - 1]) else s
  }

  /** A read line loses exactly its one line break, if it has one. */
  lemma StripReadLine(content: string, pos: nat)
    requires pos <= |content|
    ensures var line := ReadLine(content, pos).0;
            StripNewlines(line) == if line != [] && line[|line| - 1] == '\n' then line[..|line| - 1] else line
  {
    var line := ReadLine(content, pos).0;
    if line != [] && line[|line| - 1] == '\n' {
      var s := line[..|line| - 1];
      assert s == [] || s[|s| - 1] != '\n' by {
        if s != [] { assert s[|s| - 1] == line[|line| - 2]; }
      }
      assert StripNewlines(line) == StripNewlines(s);
    }
  }

  /** The JSON payload published on "raw_logs". */
  function Payload(source: string, line: string, timestamp: string, path: string): (v: Value)
    ensures v.Obj?
    ensures Lookup(v.members, "source") == Some(Str(source))
    ensures Lookup(v.members, "line") == Some(Str(line))
    ensures Lookup(v.members, "timestamp") == Some(Str(timestamp))
    ensures Lookup(v.members, "file") == Some(Str(path))
  {
    var ms := [("source", Str(source)), ("line", Str(line)), ("timestamp", Str(timestamp)), ("file", Str(path))];
    LookupFirst(ms, "source", 0);
    LookupFirst(ms, "line", 1);
    LookupFirst(ms, "timestamp", 2);
    LookupFirst(ms, "file", 3);
    Obj(ms)
  }

  /** A payload naming the worker's label and path. */
  predicate FromWorker(v: Value, source: string, path: string) {
    v.Obj? && Lookup(v.members, "source") == Some(Str(source)) && Lookup(v.members, "file") == Some(Str(path))
  }

  // ---------------------------------------------------------------------
  // One pass of the poll loop
  // ---------------------------------------------------------------------

  /** `POLL_INTERVAL`. */
  const PollInterval: real := 0.2

  /** What one pass produces: the payload it published, if any, and the
      seconds it sleeps before the next pass. */
  datatype Tick = Tick(published: Option<Value>, pause: real)

  /** One pass of `run`'s loop on the disk as it is now: open the file if
      there is no handle, read a line, and on an empty read check the path
      for rotation or deletion. `publishOk` says whether Redis accepted
      the payload. */
  function Step(f: Option<Handle>, last: Option<nat>, d: Disk, path: string, source: string,
                timestamp: string, publishOk: bool): (r: (Option<Handle>, Option<nat>, Tick))
    requires DiskOk(d) && HandleOk(f, d)
    ensures HandleOk(r.0, d)
  {
    var (f1, last1) := if f.None? then OpenFile(d, path) else (f, last);
    if f1.None? then (None, None, Tick(None, 2.0))
    else
      var h := f1.value;
      var (line, next) := ReadLine(d.contents[h.inode], h.pos);
      if line == [] then
        if path in d.names then
          if Some(d.names[path]) != last1 then
            var (f2, last2) := OpenFile(d, path);
            (f2, last2, Tick(None, 0.0))
          else (f1, last1, Tick(None, PollInterval))
        else (None, last1, Tick(None, 1.0))
      else
        var h2 := h.(pos := next);
        if publishOk then (Some(h2), last1, Tick(Some(Payload(source, StripNewlines(line), timestamp, path)), 0.0))
        else (Some(h2), last1, Tick(None, 1.0))
  }

  /** With no handle, a missing path is waited for (2 seconds); an
      existing one is opened at its end, so nothing already in it is read,
      and the pass ends polling. */
  lemma StepOpensAtEnd(last: Option<nat>, d: Disk, path: string, source: string, timestamp: string, publishOk: bool)
    requires DiskOk(d)
    ensures var r := Step(None, last, d, path, source, timestamp, publishOk);
            && (path !in d.names ==> r == (None, None, Tick(None, 2.0)))
            && (path in d.names ==>
                  var i := d.names[path];
                  r == (Some(Handle(i, |d.contents[i]|, |d.contents[i]|)), Some(i), Tick(None, PollInterval)))
  {
  }

  /** A published payload carries the worker's label and path and the
      next line after the handle's position (never before where the file
      was opened), without its line break; the handle moves past it. */
  lemma StepPublishes(h: Handle, last: Option<nat>, d: Disk, path: string, source: string, timestamp: string, publishOk: bool)
    requires DiskOk(d) && HandleOk(Some(h), d)
    ensures var r := Step(Some(h), last, d, path, source, timestamp, publishOk);
            var (line, next) := ReadLine(d.contents[h.inode], h.pos);
            && (r.2.published.Some? <==> line != [] && publishOk)
            && (r.2.published.Some? ==>
                  && r.2.published.value == Payload(source, StripNewlines(line), timestamp, path)
                  && h.openedAt <= h.pos
                  && line == d.contents[h.inode][h.pos..next]
                  && r.0 == Some(h.(pos := next)) && r.1 == last)
  {
  }

  /** A publish failure drops the line: the handle moves past it, nothing
      is published, and the pass sleeps 1 second. */
  lemma PublishFailureDropsLine(h: Handle, last: Option<nat>, d: Disk, path: string, source: string, timestamp: string)
    requires DiskOk(d) && HandleOk(Some(h), d)
    requires h.pos < |d.contents[h.inode]|
    ensures var r := Step(Some(h), last, d, path, source, timestamp, false);
            r == (Some(h.(pos := ReadLine(d.contents[h.inode], h.pos).1)), last, Tick(None, 1.0))
            && r.0.value.pos > h.pos
  {
  }

  /** On an empty read, a path now naming another inode is reopened at
      the end of the new file within the same pass and without sleeping;
      a path that is gone drops the handle (keeping the old inode) and
      sleeps 1 second; otherwise the pass just polls. */
  lemma StepOnEmptyRead(h: Handle, last: Option<nat>, d: Disk, path: string, source: string, timestamp: string, publishOk: bool)
    requires DiskOk(d) && HandleOk(Some(h), d)
    requires h.pos == |d.contents[h.inode]|
    ensures var r := Step(Some(h), last, d, path, source, timestamp, publishOk);
            && (path in d.names && Some(d.names[path]) != last ==>
                  var i := d.names[path];
                  r == (Some(Handle(i, |d.contents[i]|, |d.contents[i]|)), Some(i), Tick(None, 0.0)))
            && (path in d.names && Some(d.names[path]) == last ==> r == (Some(h), last, Tick(None, PollInterval)))
            && (path !in d.names ==> r == (None, last, Tick(None, 1.0)))
  {
  }

  /** Lines written to a rotated file before the worker notices the
      rotation are skipped: the new handle starts after them. */
  lemma RotationSkipsEarlyLines(h: Handle, d: Disk, path: string, newInode: nat, early: string,
                                source: string, timestamp: string, publishOk: bool)
    requires DiskOk(d) && HandleOk(Some(h), d) && newInode !in d.contents
    requires h.pos == |d.contents[h.inode]| && h.inode != newInode
    ensures var d2 := Append(Rotate(d, path, newInode), path, early);
            var r := Step(Some(h), Some(h.inode), d2, path, source, timestamp, publishOk);
            r == (Some(Handle(newInode, |early|, |early|)), Some(newInode), Tick(None, 0.0))
  {
    var d1 := Rotate(d, path, newInode);
    var d2 := Append(d1, path, early);
    assert d2.contents[newInode] == [] + early;
    assert d2.contents[h.inode] == d.contents[h.inode];
  }

  // ---------------------------------------------------------------------
  // The worker
  // ---------------------------------------------------------------------

  /** A `TailWorker`: its path and label, the counters it shares, and the
      loop variables `f` and `last_inode` of `run`. */
  class TailWorker {
    const path: string
    const source: string
    const stats: SharedStats
    var f: Option<Handle>
    var lastInode: Option<nat>

    constructor (path: string, source: string, stats: SharedStats)
      ensures this.path == path && this.source == source && this.stats == stats
      ensures f == None && lastInode == None
    {
      this.path := path;
      this.source := source;
      this.stats := stats;
      f := None;
      lastInode := None;
    }

    /** One pass of `run`'s loop. A published line bumps the shared
        counters once; nothing else does. */
    method Poll(d: Disk, timestamp: string, publishOk: bool) returns (tick: Tick)
      requires DiskOk(d) && HandleOk(f, d) && stats.Valid()
      modifies this, stats
      ensures (f, lastInode, tick) == Step(old(f), old(lastInode), d, path, source, timestamp, publishOk)
      ensures tick.published.Some? ==> stats.count == old(stats.count) + 1 && stats.perSource == Bump(old(stats.perSource), source)
      ensures tick.published.None? ==> stats.count == old(stats.count) && stats.perSource == old(stats.perSource)
      ensures tick.published.Some? ==> FromWorker(tick.published.value, source, path)
      ensures stats.Valid()
    {
      if f.None? {
        f, lastInode := OpenFile(d, path).0, OpenFile(d, path).1;
        if f.None? {
          return Tick(None, 2.0);
        }
      }
      var h := f.value;
      var (line, next) := ReadLine(d.contents[h.inode], h.pos);
      if line == [] {
        if path in d.names {
          if Some(d.names[path]) != lastInode {
            f, lastInode := OpenFile(d, path).0, OpenFile(d, path).1;
            return Tick(None, 0.0);
          }
          return Tick(None, PollInterval);
        }
        f := None;
        return Tick(None, 1.0);
      }
      f := Some(h.(pos := next));
      if publishOk {
        var payload := Payload(source, StripNewlines(line), timestamp, path);
        stats.Increment(source);
        return Tick(Some(payload), 0.0);
      }
      return Tick(None, 1.0);
    }

    /** `run()` until the worker is stopped, on a disk observed at each
        pass (`disks[k]`, each a later state of the one before) with Redis
        accepting the k-th payload when `accepted[k]`. Every published
        payload carries this worker's label and path, and the shared count
        rises by exactly the number of payloads. */
    method Run(disks: seq<Disk>, timestamps: seq<string>, accepted: seq<bool>) returns (published: seq<Value>)
      requires |disks| == |timestamps| == |accepted|
      requires forall k :: 0 <= k < |disks| ==> DiskOk(disks[k])
      requires forall k :: 0 < k < |disks| ==> Grows(disks[k - 1], disks[k])
      requires |disks| > 0 ==> HandleOk(f, disks[0])
      requires stats.Valid()
      modifies this, stats
      ensures stats.count == old(stats.count) + |published|
      ensures Count(stats.perSource, source) == Count(old(stats.perSource), source) + |published|
      ensures forall k :: 0 <= k < |published| ==>
                FromWorker(published[k], source, path)
      ensures stats.Valid()
    {
      published := [];
      var i := 0;
      while i < |disks|
        invariant 0 <= i <= |disks|
        invariant i < |disks| ==> HandleOk(f, disks[i])
        invariant stats.Valid()
        invariant stats.count == old(stats.count) + |published|
        invariant Count(stats.perSource, source) == Count(old(stats.perSource), source) + |published|
        invariant forall k :: 0 <= k < |published| ==>
                    FromWorker(published[k], source, path)
      {
        var tick := Poll(disks[i], timestamps[i], accepted[i]);
        if tick.published.Some? {
          published := published + [tick.published.value];
        }
        assert forall k :: 0 <= k < |published| ==> FromWorker(published[k], source, path);
        if i + 1 < |disks| {
          HandleOkLater(f, disks[i], disks[i + 1]);
        }
        i := i + 1;
      }
    }
  }
}
