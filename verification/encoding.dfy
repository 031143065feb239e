/** Encoding all variants of a job: the plain encoder
    (internal/infrastructure/ffmpeg/encoder.go), and the one that resumes from a
    checkpoint (internal/application/usecases/transcode_usecase.go). ffmpeg is an
    oracle; only what EncodeQuality reports about it is modelled
    (internal/infrastructure/ffmpeg/quality_encoder.go). */
module Encoding {
  import opened Options
  import opened JobStates
  import opened Ladders

  /** The hls directory of a job and how many chunk files a complete encoding of each
      variant has; the input file is fixed, so ffmpeg's output is too. */
  datatype Site = Site(hls: string, full: string -> nat)

  /** Which variant directories exist and how many chunk files each holds. Chunks are
      numbered from zero and only ever overwritten, so the count never falls. */
  type Dir = map<string, nat>

  /** How one call of EncodeQuality goes. */
  datatype Outcome =
    | NoDirectory             // the variant directory could not be made
    | Broken(written: nat)    // no video info, ffmpeg failed or the watchdog fired
    | Done

  datatype QualityOutput = QualityOutput(quality: string, playlist: string, chunksDir: string, chunkCount: nat)

  datatype QualityResult = QualityResult(success: bool, output: QualityOutput)

  function Min(a: nat, b: nat): nat { if a <= b then a else b }
  function Max(a: nat, b: nat): nat { if a >= b then a else b }

  function Chunks(dir: Dir, name: string): nat { if name in dir then dir[name] else 0 }

  function VariantDir(hls: string, name: string): string { hls + "/" + name }

  function OutputOf(hls: string, name: string, chunks: nat): QualityOutput
  {
    QualityOutput(name, VariantDir(hls, name) + "/main.m3u8", VariantDir(hls, name), chunks)
  }

  /** What the record of an encoding must say of a variant. */
  ghost predicate Describes(hls: string, q: QualityOutput, name: string, chunks: nat)
  {
    && q.quality == name && q.chunksDir == hls + "/" + name
    && q.playlist == q.chunksDir + "/main.m3u8" && q.chunkCount == chunks
  }

  /** Variants of different names never share a directory. */
  lemma DirectoriesDiffer(hls: string, a: QualityOutput, b: QualityOutput, x: string, y: string, m: nat, n: nat)
    requires Describes(hls, a, x, m) && Describes(hls, b, y, n) && x != y
    ensures a.chunksDir != b.chunksDir && a.playlist != b.playlist
  {
    var lead, tail := |hls + "/"|, |"/main.m3u8"|;
    assert a.chunksDir[lead..] == x && b.chunksDir[lead..] == y;
    assert a.playlist[..|a.playlist| - tail] == a.chunksDir && b.playlist[..|b.playlist| - tail] == b.chunksDir;
  }

  function AfterEncode(c: Site, dir: Dir, name: string, o: Outcome): Dir
  {
    match o
    case NoDirectory => dir
    case Broken(written) => dir[name := Max(Chunks(dir, name), Min(written, c.full(name)))]
    case Done => dir[name := Max(Chunks(dir, name), c.full(name))]
  }

  /** ffmpeg ran through and left at least one chunk. */
  predicate Succeeds(c: Site, dir: Dir, name: string, o: Outcome)
  {
    o.Done? && Chunks(AfterEncode(c, dir, name, o), name) > 0
  }

  /** What the loop over the variants collects. */
  datatype Tally = Tally(outputs: seq<QualityOutput>, chosen: seq<Variant>, failed: seq<string>)

  const NoTally := Tally([], [], [])

  function Keep(t: Tally, hls: string, v: Variant, chunks: nat): Tally
  {
    t.(outputs := t.outputs + [OutputOf(hls, v.name, chunks)], chosen := t.chosen + [v])
  }

  function Lose(t: Tally, v: Variant): Tally { t.(failed := t.failed + [v.name]) }

  /** The result of either encoder. */
  datatype Verdict =
    | Encoded(outputs: seq<QualityOutput>, chosen: seq<Variant>)
    | Partial(outputs: seq<QualityOutput>, chosen: seq<Variant>, failed: seq<string>, succeeded: nat, total: nat)
    | AllFailed
    | NoPlaylist

  // ------------------------------------------------------------- the plain encoder

  datatype Plain = Plain(dir: Dir, tally: Tally)

  function PlainStep(c: Site, p: Plain, v: Variant, o: Outcome): Plain
  {
    var dir := AfterEncode(c, p.dir, v.name, o);
    Plain(dir, if Succeeds(c, p.dir, v.name, o) then Keep(p.tally, c.hls, v, Chunks(dir, v.name)) else Lose(p.tally, v))
  }

  /** The first n variants, the i-th going as outcomes(i) says. */
  function PlainRun(c: Site, dir: Dir, vs: seq<Variant>, outcomes: nat -> Outcome, n: nat): Plain
    requires n <= |vs|
  {
    if n == 0 then Plain(dir, NoTally)
    else PlainStep(c, PlainRun(c, dir, vs, outcomes, n - 1), vs[n - 1], outcomes(n - 1))
  }

  /** The names of the first n variants. */
  function Names(vs: seq<Variant>, n: nat): seq<string>
    requires n <= |vs|
  {
    if n == 0 then [] else Names(vs, n - 1) + [vs[n - 1].name]
  }

  function PlainVerdict(t: Tally, total: nat, playlistOk: bool): Verdict
  {
    if t.chosen == [] then AllFailed
    else if !playlistOk then NoPlaylist
    else if t.failed != [] then Partial(t.outputs, t.chosen, t.failed, |t.chosen|, total)
    else Encoded(t.outputs, t.chosen)
  }

  // ---------------------------------------------------------- the resuming encoder

  /** `calls` lists the variants for which EncodeQuality was called. */
  datatype Scene = Scene(state: Snapshot, dir: Dir, tally: Tally, calls: seq<string>)

  /** A completed variant: nothing is encoded, its files are listed if they are there. */
  function Skip(hls: string, dir: Dir, t: Tally, v: Variant): Tally
  {
    if v.name in dir then Keep(t, hls, v, dir[v.name]) else t
  }

  function Record(s: Snapshot, v: Variant, success: bool): Snapshot
  {
    if success then MarkComplete(s, v.name) else MarkFailed(s, v.name)
  }

  function ResumeStep(c: Site, s: Scene, v: Variant, o: Outcome): Scene
  {
    if v.name in s.state.complete then s.(tally := Skip(c.hls, s.dir, s.tally, v))
    else
      var p := PlainStep(c, Plain(s.dir, s.tally), v, o);
      Scene(Record(s.state, v, Succeeds(c, s.dir, v.name, o)), p.dir, p.tally, s.calls + [v.name])
  }

  function ResumeRun(c: Site, start: Scene, vs: seq<Variant>, outcomes: nat -> Outcome, n: nat): Scene
    requires n <= |vs|
  {
    if n == 0 then start
    else ResumeStep(c, ResumeRun(c, start, vs, outcomes, n - 1), vs[n - 1], outcomes(n - 1))
  }

  function ResumeVerdict(t: Tally, total: nat, playlistOk: bool): Verdict
  {
    if t.chosen != [] && !playlistOk then NoPlaylist
    else if t.failed != [] && t.chosen != [] then Partial(t.outputs, t.chosen, t.failed, |t.chosen|, total)
    else if t.chosen == [] then AllFailed
    else Encoded(t.outputs, t.chosen)
  }

  // ---------------------------------------------------------------- the program

  /** The job's hls directory. */
  class JobDir {
    const site: Site
    var dir: Dir
    ghost var calls: seq<string>  // the variants for which EncodeQuality was called

    constructor (site: Site)
      ensures this.site == site && dir == map[] && calls == []
    {
      this.site, dir, calls := site, map[], [];
    }

    method EncodeQuality(v: Variant, o: Outcome) returns (r: QualityResult)
      modifies this
      ensures dir == AfterEncode(site, old(dir), v.name, o) && calls == old(calls) + [v.name]
      ensures r.success <==> Succeeds(site, old(dir), v.name, o)
      ensures r.success ==> r.output == OutputOf(site.hls, v.name, Chunks(dir, v.name))
      ensures r.success ==> Describes(site.hls, r.output, v.name, Chunks(dir, v.name))
      ensures var was := Chunks(old(dir), v.name);
              && (r.success <==> o.Done? && (was > 0 || site.full(v.name) > 0))
              && (o.NoDirectory? ==> dir == old(dir))
              && (o.Done? ==> dir == old(dir)[v.name := Max(was, site.full(v.name))])
              && (o.Broken? ==> dir == old(dir)[v.name := Max(was, Min(o.written, site.full(v.name)))])
    {
      calls := calls + [v.name];
      r := QualityResult(false, QualityOutput(v.name, "", "", 0));
      if o.NoDirectory? {
        return;
      }
      var present := if v.name in dir then dir[v.name] else 0;
      var written := if o.Done? then site.full(v.name) else Min(o.written, site.full(v.name));
      dir := dir[v.name := if written > present then written else present];
      if o.Broken? {
        return;
      }
      var chunks := dir[v.name];
      if chunks == 0 {
        return;
      }
      var variantDir := site.hls + "/" + v.name;
      r := QualityResult(true, QualityOutput(v.name, variantDir + "/main.m3u8", variantDir, chunks));
    }

    method LoadExistingQuality(v: Variant) returns (r: Option<QualityOutput>)
      ensures r == if v.name in dir then Some(OutputOf(site.hls, v.name, dir[v.name])) else None
      ensures r.Some? <==> v.name in dir
      ensures r.Some? ==> Describes(site.hls, r.value, v.name, dir[v.name])
    {
      if v.name !in dir {
        return None;
      }
      var variantDir := site.hls + "/" + v.name;
      r := Some(QualityOutput(v.name, variantDir + "/main.m3u8", variantDir, dir[v.name]));
    }

    method EncodeHLSWithPartialSuccess(vs: seq<Variant>, outcomes: nat -> Outcome, playlistOk: bool)
      returns (verdict: Verdict)
      modifies this
      ensures var p := PlainRun(site, old(dir), vs, outcomes, |vs|);
              dir == p.dir && verdict == PlainVerdict(p.tally, |vs|, playlistOk)
      ensures calls == old(calls) + Names(vs, |vs|)
    {
      var outputs: seq<QualityOutput>, successful: seq<Variant>, failed: seq<string> := [], [], [];
      for i := 0 to |vs|
        invariant PlainRun(site, old(dir), vs, outcomes, i) == Plain(dir, Tally(outputs, successful, failed))
        invariant calls == old(calls) + Names(vs, i)
      {
        var q := EncodeQuality(vs[i], outcomes(i));
        if q.success {
          outputs := outputs + [q.output];
          successful := successful + [vs[i]];
        } else {
          failed := failed + [vs[i].name];
        }
      }
      if |successful| == 0 {
        return AllFailed;
      }
      if !playlistOk {
        return NoPlaylist;
      }
      if |failed| > 0 {
        return Partial(outputs, successful, failed, |successful|, |vs|);
      }
      return Encoded(outputs, successful);
    }

    /** encodeWithResume; the saves between its steps are in module Pipelines. */
    method EncodeWithResume(state: JobState, vs: seq<Variant>, outcomes: nat -> Outcome, playlistOk: bool)
      returns (verdict: Verdict)
      modifies this, state
      ensures var s := ResumeRun(site, Scene(old(state.View()), old(dir), NoTally, old(calls)), vs, outcomes, |vs|);
              && dir == s.dir && state.View() == s.state && calls == s.calls
              && verdict == ResumeVerdict(s.tally, |vs|, playlistOk)
    {
      var outputs: seq<QualityOutput>, successful: seq<Variant>, failed: seq<string> := [], [], [];
      for i := 0 to |vs|
        invariant ResumeRun(site, Scene(old(state.View()), old(dir), NoTally, old(calls)), vs, outcomes, i)
               == Scene(state.View(), dir, Tally(outputs, successful, failed), calls)
      {
        var completed := state.IsQualityCompleted(vs[i].name);
        if completed {
          var existing := LoadExistingQuality(vs[i]);
          if existing.Some? {
            outputs := outputs + [existing.value];
            successful := successful + [vs[i]];
          }
        } else {
          var q := EncodeQuality(vs[i], outcomes(i));
          if q.success {
            outputs := outputs + [q.output];
            successful := successful + [vs[i]];
            state.MarkQualityCompleted(vs[i].name);
          } else {
            failed := failed + [vs[i].name];
            state.MarkQualityFailed(vs[i].name);
          }
        }
      }
      if |successful| > 0 && !playlistOk {
        return NoPlaylist;
      }
      if |failed| > 0 && |successful| > 0 {
        return Partial(outputs, successful, failed, |successful|, |vs|);
      }
      if |successful| == 0 {
        return AllFailed;
      }
      return Encoded(outputs, successful);
    }
  }

  // ------------------------------------------------------------------- refinement

  lemma {:induction false} ResumeMatchesPlain(c: Site, state: Snapshot, dir: Dir, vs: seq<Variant>,
                                              outcomes: nat -> Outcome, n: nat)
    requires n <= |vs| && DistinctNames(vs) && state.complete == []
    ensures var s := ResumeRun(c, Scene(state, dir, NoTally, []), vs, outcomes, n);
            && s.calls == Names(vs, n)
            && Plain(s.dir, s.tally) == PlainRun(c, dir, vs, outcomes, n)
            && (forall i :: n <= i < |vs| ==> vs[i].name !in s.state.complete)
  {
    if n > 0 {
      ResumeMatchesPlain(c, state, dir, vs, outcomes, n - 1);
    }
  }

  /** Main result: from a checkpoint with no completed quality the resuming encoder
      behaves like the plain one for every pattern of outcomes: same files, same
      outputs, variants, failed list and counts, same kind of verdict. */
  lemma ResumeRefinesPlain(c: Site, state: Snapshot, dir: Dir, vs: seq<Variant>, outcomes: nat -> Outcome,
                           playlistOk: bool)
    requires DistinctNames(vs) && state.complete == []
    ensures var s := ResumeRun(c, Scene(state, dir, NoTally, []), vs, outcomes, |vs|);
            var p := PlainRun(c, dir, vs, outcomes, |vs|);
            && s.calls == Names(vs, |vs|) && s.dir == p.dir
            && ResumeVerdict(s.tally, |vs|, playlistOk) == PlainVerdict(p.tally, |vs|, playlistOk)
  {
    ResumeMatchesPlain(c, state, dir, vs, outcomes, |vs|);
  }

  // ------------------------------------------------------------ what a verdict tells

  /** The kind of verdict and its contents, in both directions. */
  ghost predicate Tells(v: Verdict, t: Tally, total: nat, playlistOk: bool)
  {
    && (v.AllFailed? <==> t.chosen == [])
    && (v.NoPlaylist? <==> t.chosen != [] && !playlistOk)
    && (v.Partial? <==> t.chosen != [] && playlistOk && t.failed != [])
    && (v.Encoded? <==> t.chosen != [] && playlistOk && t.failed == [])
    && (v.Encoded? || v.Partial? ==> v.outputs == t.outputs && v.chosen == t.chosen)
    && (v.Partial? ==> v.failed == t.failed && v.succeeded == |t.chosen| && v.total == total)
  }

  lemma VerdictsTell(t: Tally, total: nat, playlistOk: bool)
    ensures Tells(PlainVerdict(t, total, playlistOk), t, total, playlistOk)
    ensures Tells(ResumeVerdict(t, total, playlistOk), t, total, playlistOk)
  {}

  /** The plain encoder's counts add up: every variant succeeded or failed. */
  lemma {:induction false} CountsAddUp(c: Site, dir: Dir, vs: seq<Variant>, outcomes: nat -> Outcome, n: nat)
    requires n <= |vs|
    ensures var t := PlainRun(c, dir, vs, outcomes, n).tally; |t.chosen| + |t.failed| == n && |t.outputs| == |t.chosen|
  {
    if n > 0 {
      CountsAddUp(c, dir, vs, outcomes, n - 1);
    }
  }

  // ------------------------------------------------- what one call does with each variant

  /** The variants among the first n that are completed and have their directory. */
  function Listed(vs: seq<Variant>, n: nat, complete: seq<string>, dir: Dir): seq<Variant>
    requires n <= |vs|
  {
    if n == 0 then []
    else
      var before := Listed(vs, n - 1, complete, dir);
      if vs[n - 1].name in complete && vs[n - 1].name in dir then before + [vs[n - 1]] else before
  }

  /** The names among the first n that are not completed. */
  function StillOpen(vs: seq<Variant>, n: nat, complete: seq<string>): seq<string>
    requires n <= |vs|
  {
    if n == 0 then []
    else if vs[n - 1].name in complete then StillOpen(vs, n - 1, complete)
    else StillOpen(vs, n - 1, complete) + [vs[n - 1].name]
  }

  ghost predicate NoRepeats(names: seq<string>)
  {
    forall i, j :: 0 <= i < j < |names| ==> names[i] != names[j]
  }

  /** What later variants do changes nothing for the first n. */
  lemma {:induction false} LaterVariants(vs: seq<Variant>, n: nat, k: nat, complete: seq<string>, dir: Dir,
                                         complete': seq<string>, dir': Dir)
    requires DistinctNames(vs) && n <= k < |vs|
    requires forall q :: q != vs[k].name ==> (q in complete <==> q in complete')
    requires forall q :: q != vs[k].name ==> (q in dir <==> q in dir')
    ensures Listed(vs, n, complete, dir) == Listed(vs, n, complete', dir')
    ensures StillOpen(vs, n, complete) == StillOpen(vs, n, complete')
  {
    if n > 0 {
      LaterVariants(vs, n - 1, k, complete, dir, complete', dir');
    }
  }

  /** After n variants the loop has called EncodeQuality once for each of them that was not
      completed when it began and for no other; it has listed exactly the completed ones
      whose files are there, counted their chunks, and failed exactly those still open. */
  ghost predicate Accounted(c: Site, start: Scene, vs: seq<Variant>, n: nat, s: Scene)
    requires n <= |vs|
  {
    && s.tally.chosen == Listed(vs, n, s.state.complete, s.dir)
    && s.tally.failed == StillOpen(vs, n, s.state.complete)
    && |s.tally.outputs| == |s.tally.chosen|
    && (forall k :: 0 <= k < |s.tally.chosen| ==>
          s.tally.outputs[k] == OutputOf(c.hls, s.tally.chosen[k].name, Chunks(s.dir, s.tally.chosen[k].name)))
    && (forall k :: 0 <= k < |s.tally.chosen| ==>
          Describes(c.hls, s.tally.outputs[k], s.tally.chosen[k].name, Chunks(s.dir, s.tally.chosen[k].name)))
    && s.calls == start.calls + StillOpen(vs, n, start.state.complete)
    && start.state.complete <= s.state.complete && NoRepeats(s.state.complete)
    && s.state.failed == start.state.failed + s.tally.failed
    && (forall q :: q in start.state.complete ==>
          (q in s.dir <==> q in start.dir) && Chunks(s.dir, q) == Chunks(start.dir, q))
    && (forall q :: q in s.state.complete && q !in start.state.complete ==> Chunks(s.dir, q) > 0)
    && (forall i :: n <= i < |vs| && vs[i].name in s.state.complete ==> vs[i].name in start.state.complete)
  }

  lemma {:induction false} ListedNames(vs: seq<Variant>, n: nat, m: nat, complete: seq<string>, dir: Dir)
    requires n <= m < |vs| && DistinctNames(vs)
    ensures forall k :: 0 <= k < |Listed(vs, n, complete, dir)| ==> Listed(vs, n, complete, dir)[k].name != vs[m].name
  {
    if n > 0 {
      ListedNames(vs, n - 1, m, complete, dir);
    }
  }

  lemma PrefixMembers(a: seq<string>, b: seq<string>)
    requires a <= b
    ensures forall q :: q in a ==> q in b
  {}

  lemma SkipAccounted(c: Site, start: Scene, vs: seq<Variant>, n: nat, s: Scene)
    requires DistinctNames(vs) && n < |vs| && Accounted(c, start, vs, n, s) && vs[n].name in s.state.complete
    ensures Accounted(c, start, vs, n + 1, s.(tally := Skip(c.hls, s.dir, s.tally, vs[n])))
  {}

  lemma LoseAccounted(c: Site, start: Scene, vs: seq<Variant>, n: nat, s: Scene, o: Outcome)
    requires DistinctNames(vs) && n < |vs| && Accounted(c, start, vs, n, s) && vs[n].name !in s.state.complete
    requires !Succeeds(c, s.dir, vs[n].name, o)
    ensures Accounted(c, start, vs, n + 1, ResumeStep(c, s, vs[n], o))
  {
    var dir := AfterEncode(c, s.dir, vs[n].name, o);
    PrefixMembers(start.state.complete, s.state.complete);
    ListedNames(vs, n, n, s.state.complete, s.dir);
    LaterVariants(vs, n, n, s.state.complete, s.dir, s.state.complete, dir);
  }

  lemma KeepAccounted(c: Site, start: Scene, vs: seq<Variant>, n: nat, s: Scene, o: Outcome)
    requires DistinctNames(vs) && n < |vs| && Accounted(c, start, vs, n, s) && vs[n].name !in s.state.complete
    requires Succeeds(c, s.dir, vs[n].name, o)
    ensures Accounted(c, start, vs, n + 1, ResumeStep(c, s, vs[n], o))
  {
    var t := ResumeStep(c, s, vs[n], o);
    PrefixMembers(start.state.complete, s.state.complete);
    ListedNames(vs, n, n, s.state.complete, s.dir);
    LaterVariants(vs, n, n, s.state.complete, s.dir, t.state.complete, t.dir);
  }

  lemma {:induction false} ResumeAccounted(c: Site, start: Scene, vs: seq<Variant>, outcomes: nat -> Outcome, n: nat)
    requires DistinctNames(vs) && n <= |vs| && start.tally == NoTally && NoRepeats(start.state.complete)
    ensures Accounted(c, start, vs, n, ResumeRun(c, start, vs, outcomes, n))
  {
    if n > 0 {
      ResumeAccounted(c, start, vs, outcomes, n - 1);
      var s, v, o := ResumeRun(c, start, vs, outcomes, n - 1), vs[n - 1], outcomes(n - 1);
      if v.name in s.state.complete {
        SkipAccounted(c, start, vs, n - 1, s);
      } else if Succeeds(c, s.dir, v.name, o) {
        KeepAccounted(c, start, vs, n - 1, s, o);
      } else {
        LoseAccounted(c, start, vs, n - 1, s, o);
      }
    }
  }

  /** Main result: every call, whatever the checkpoint and the outcomes, splits the
      variants in ladder order into those it lists (completed, files there), those it
      reports failed, and completed ones whose files are gone; it calls EncodeQuality
      for no quality that was completed and once for each of the others, and it lists
      outputs and variants in step. */
  lemma CallSplitsVariants(c: Site, start: Scene, vs: seq<Variant>, outcomes: nat -> Outcome)
    requires DistinctNames(vs) && start.tally == NoTally && NoRepeats(start.state.complete)
    ensures Accounted(c, start, vs, |vs|, ResumeRun(c, start, vs, outcomes, |vs|))
  {
    ResumeAccounted(c, start, vs, outcomes, |vs|);
  }

  // -------------------------------------------------------------- the fault-free run

  ghost predicate WithinFull(c: Site, dir: Dir) { forall q :: q in dir ==> dir[q] <= c.full(q) }

  function AlwaysDone(): nat -> Outcome { (i: nat) => Done }

  /** The outputs of an undisturbed encoding of every variant. */
  function FullOutputs(c: Site, vs: seq<Variant>): seq<QualityOutput>
  {
    seq(|vs|, i requires 0 <= i < |vs| => OutputOf(c.hls, vs[i].name, c.full(vs[i].name)))
  }

  lemma {:induction false} PlainAllDone(c: Site, vs: seq<Variant>, n: nat)
    requires n <= |vs| && DistinctNames(vs) && forall i :: 0 <= i < |vs| ==> c.full(vs[i].name) > 0
    ensures PlainRun(c, map[], vs, AlwaysDone(), n).tally == Tally(FullOutputs(c, vs)[..n], vs[..n], [])
    ensures WithinFull(c, PlainRun(c, map[], vs, AlwaysDone(), n).dir)
  {
    if n > 0 {
      PlainAllDone(c, vs, n - 1);
      var all := FullOutputs(c, vs);
      assert all[..n] == all[..n - 1] + [all[n - 1]] && vs[..n] == vs[..n - 1] + [vs[n - 1]];
    }
  }

  /** One fault-free run of the plain encoder in an empty directory. */
  function FaultFree(c: Site, vs: seq<Variant>): Verdict
  {
    PlainVerdict(PlainRun(c, map[], vs, AlwaysDone(), |vs|).tally, |vs|, true)
  }

  lemma FaultFreeEncodesAll(c: Site, vs: seq<Variant>)
    requires vs != [] && DistinctNames(vs) && forall i :: 0 <= i < |vs| ==> c.full(vs[i].name) > 0
    ensures FaultFree(c, vs) == Encoded(FullOutputs(c, vs), vs)
  {
    PlainAllDone(c, vs, |vs|);
  }
}
