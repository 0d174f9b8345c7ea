// What time can and cannot change: manifests, accepted batches and stored rows across any run.
module Progress {
  import opened Batches
  import opened Facts
  import opened Protocol
  import opened Safety

  /** How one manifest may develop: SUCCEEDED and FAILED are terminal, COMMITTED can only succeed. */
  ghost predicate RunGrows(r: Run, r': Run) {
    && r'.request == r.request
    && (r.status == Succeeded || r.status == Failed ==> r' == r)
    && (r.status == Committed ==>
          r' == r || (r'.knowledgeAt.Some? && r' == r.(status := Succeeded, knowledgeAt := r'.knowledgeAt)))
  }

  ghost predicate Extends(s: State, s': State) {
    && s.log <= s'.log
    && s.clock <= s'.clock
    && s.taken <= s'.taken && s.ended <= s'.ended
    && forall run | run in s.runs :: run in s'.runs && RunGrows(s.runs[run], s'.runs[run])
  }

  lemma ExtendsTransitive(a: State, b: State, c: State)
    requires Extends(a, b) && Extends(b, c)
    ensures Extends(a, c)
  {
    forall run | run in a.runs
      ensures run in c.runs && RunGrows(a.runs[run], c.runs[run])
    {
      assert RunGrows(a.runs[run], b.runs[run]) && RunGrows(b.runs[run], c.runs[run]);
    }
  }

  lemma ExecuteExtends(s: State, run: RunId)
    ensures Extends(s, ExecuteJob(s, run))
  {
  }

  lemma FinalizeExtends(s: State, run: RunId, at: nat)
    ensures Extends(s, FinalizeJob(s, run, at))
  {
    if FinalizeRun(s, run, at).Some? {
      FinalizeRunExtends(s, run, at);
    }
  }

  lemma FinalizeRunExtends(s: State, run: RunId, at: nat)
    requires FinalizeRun(s, run, at).Some?
    ensures Extends(s, FinalizeRun(s, run, at).value)
  {
  }

  lemma FailExtends(s: State, run: RunId)
    ensures Extends(s, FailRun(s, run))
  {
  }

  lemma BeginExtends(s: State, run: RunId)
    ensures Extends(s, ExecuteBegin(s, run))
  {
  }

  lemma QuietExtends(s: State, s': State)
    requires s'.log == s.log && s'.runs == s.runs && s'.clock >= s.clock && s.taken <= s'.taken && s.ended <= s'.ended
    ensures Extends(s, s')
  {
  }

  lemma JobExtends(x: Externals, s: State, event: Event)
    requires event.Submit? || event.Abort? || event.End? || event.Forget?
    ensures Extends(s, Step(x, s, event))
  {
    match event
    case Submit(run, request, records, snap) => QuietExtends(s, SubmitOnce(x, s, run, request, records, snap));
    case Abort(run) => QuietExtends(s, AbortJob(s, run));
    case End(run, succeeded) => QuietExtends(s, EndJob(s, run, succeeded));
    case Forget(run) => QuietExtends(s, Step(x, s, event));
  }

  lemma BeginEditExtends(x: Externals, s: State, event: Event)
    requires event.Begin? || event.BeginFails? || event.BeginExpires?
    ensures Extends(s, Step(x, s, event))
  {
    match event
    case Begin(run, request) => QuietExtends(s, SubmitBegin(s, run, request));
    case BeginFails(run) => QuietExtends(s, AbortBegin(s, run));
    case BeginExpires(run) => QuietExtends(s, ForgetBegin(s, run));
  }

  lemma FactsOnlyExtends(s: State, s': State)
    requires FactsOnly(s, s')
    ensures Extends(s, s')
  {
    QuietExtends(s, s');
  }

  lemma StepExtends(x: Externals, s: State, event: Event)
    ensures Extends(s, Step(x, s, event))
  {
    match event
    case BeginRuns(run) => BeginExtends(s, run);
    case Execute(run) => ExecuteExtends(s, run);
    case Finalize(run, at) => FinalizeExtends(s, run, at);
    case MarkFailed(run) => FailExtends(s, run);
    case Read(request) => QuietExtends(s, ReadOnce(s, request));
    case Tick(elapsed) => QuietExtends(s, s.(clock := s.clock + elapsed));
    case _ =>
      if event.Begin? || event.BeginFails? || event.BeginExpires? {
        BeginEditExtends(x, s, event);
      } else if event.Submit? || event.Abort? || event.End? || event.Forget? {
        JobExtends(x, s, event);
      } else {
        DbtIsLocal(x, s, event);
        FactsOnlyExtends(s, Step(x, s, event));
      }
  }

  /** Whatever happens next, accepted batches stay accepted and terminal manifests stay as they are. */
  lemma {:induction false} PlayExtends(x: Externals, s: State, events: seq<Event>)
    ensures Extends(s, Play(x, s, events))
  {
    if events == [] {
      QuietExtends(s, s);
    } else {
      PlayExtends(x, s, events[..|events| - 1]);
      StepExtends(x, Play(x, s, events[..|events| - 1]), events[|events| - 1]);
      ExtendsTransitive(s, Play(x, s, events[..|events| - 1]), Play(x, s, events));
    }
  }

  lemma {:induction false} PlayKeeps(x: Externals, s: State, events: seq<Event>)
    requires x.Valid() && Inv(x, s)
    ensures Inv(x, Play(x, s, events))
  {
    if events != [] {
      PlayKeeps(x, s, events[..|events| - 1]);
      StepKeeps(x, Play(x, s, events[..|events| - 1]), events[|events| - 1]);
    }
  }
}
