/** Finishing, releasing and resuming a session: an intent to finish outlives the process that formed it. */
module SessionLives {
  import opened Basics

  /** Marks of a session tape; `landed` tells whether the append that left an intent succeeded. */
  datatype Mark = Resumed | Beat | FinishPending(text: string, landed: bool) | Finished(text: string)

  datatype Run = Run(finished: bool, finishing: bool, text: Option<string>, authority: bool)

  datatype Life = Life(tape: seq<Mark>, run: Option<Run>)

  datatype Error = Busy | NotOpen | AlreadyFinished | Finishing | NotFinished | Duplicate | Io

  predicate IsFinish(m: Mark) {
    m.FinishPending? || m.Finished?
  }

  function LastFinish(tape: seq<Mark>): Option<Mark> {
    if tape == [] then None
    else if IsFinish(tape[|tape| - 1]) then Some(tape[|tape| - 1])
    else LastFinish(tape[..|tape| - 1])
  }

  function LastIntent(tape: seq<Mark>): Option<string> {
    if tape == [] then None
    else if tape[|tape| - 1].FinishPending? then Some(tape[|tape| - 1].text)
    else LastIntent(tape[..|tape| - 1])
  }

  const OPEN := Run(false, false, None, true)

  // ---------------------------------------------------------------- operations

  datatype FinishEnv = FinishEnv(running: bool, intent: Appended, closures: bool, finish: Appended)

  /** The intent is persisted before authority is retired. */
  function Intend(l: Life, text: string, w: Appended): (Life, Option<Error>)
    requires l.run.Some?
  {
    if l.run.value.finishing then (l, None)
    else
      var noted := l.(tape := Noted(l.tape, FinishPending(text, w == Landed), w));
      if w != Landed then (noted, Some(Io))
      else (noted.(run := Some(l.run.value.(finishing := true, text := Some(text), authority := false))), None)
  }

  /** `finish_session`. */
  function Finish(l: Life, text: string, env: FinishEnv): (Life, Option<Error>) {
    if env.running then (l, Some(Busy))
    else if l.run.None? then (l, Some(NotOpen))
    else if l.run.value.finished then (l, Some(AlreadyFinished))
    else
      var (l1, e) := Intend(l, text, env.intent);
      if e.Some? then (l1, e)
      else if l1.run.value.text.None? then (l1, Some(Finishing))
      else if !env.closures then (l1, Some(Io))
      else
        var noted := l1.(tape := Noted(l1.tape, Finished(l1.run.value.text.value), env.finish));
        if env.finish != Landed then (noted, Some(Io))
        else (noted.(run := Some(l1.run.value.(finished := true, finishing := false))), None)
  }

  /** `release`. */
  function Release(l: Life, running: bool): (Life, Option<Error>) {
    if running then (l, Some(Busy))
    else if l.run.None? then (l, Some(NotOpen))
    else if !l.run.value.finished then (l, Some(NotFinished))
    else (l.(run := None), None)
  }

  /** `resume_session`: an intent that no finish has answered is taken up again, without authority. */
  function Resume(l: Life, read: bool, w: Appended): (Life, Option<Error>) {
    if l.run.Some? then (l, Some(Duplicate))
    else if !read then (l, Some(Io))
    else
      var noted := l.(tape := Noted(l.tape, Resumed, w));
      if w != Landed then (noted, Some(Io))
      else
        match LastFinish(l.tape)
        case Some(FinishPending(text, _)) => (noted.(run := Some(Run(false, true, Some(text), false))), None)
        case _ => (noted.(run := Some(OPEN)), None)
  }

  /** `begin_beat`. */
  function Begin(l: Life): (Life, Option<Error>) {
    if l.run.None? then (l, Some(NotOpen))
    else if l.run.value.finished then (l, Some(AlreadyFinished))
    else if l.run.value.finishing then (l, Some(Finishing))
    else if !l.run.value.authority then (l, Some(NotOpen))
    else (l.(tape := l.tape + [Beat]), None)
  }

  // ---------------------------------------------------------------- the invariant

  /** Each finish carries the text of the intent it answers. */
  predicate Answers(tape: seq<Mark>, i: nat)
    requires i < |tape|
  {
    tape[i].Finished? ==> LastIntent(tape[..i]) == Some(tape[i].text)
  }

  /** No beat follows an intent, but for one whose append failed, and then only in the same engagement. */
  predicate BeatIsFree(tape: seq<Mark>, i: nat)
    requires i < |tape|
  {
    tape[i].Beat? ==>
      match LastFinish(tape[..i])
      case Some(FinishPending(_, landed)) => !landed && !ResumedSince(tape[..i])
      case _ => true
  }

  /** Whether a resume follows the last finish mark. */
  predicate ResumedSince(tape: seq<Mark>) {
    tape != [] && !IsFinish(tape[|tape| - 1]) && (tape[|tape| - 1].Resumed? || ResumedSince(tape[..|tape| - 1]))
  }

  ghost predicate Sound(l: Life) {
    && (forall i: nat | i < |l.tape| :: Answers(l.tape, i) && BeatIsFree(l.tape, i))
    && (l.run.Some? ==> RunSound(l.tape, l.run.value))
  }

  predicate RunSound(tape: seq<Mark>, r: Run) {
    && (r.authority <==> !r.finishing && !r.finished)
    && !(r.finishing && r.finished)
    && (r.finishing || r.finished ==> r.text.Some? && LastIntent(tape) == r.text)
    && (r.authority ==>
          match LastFinish(tape)
          case Some(FinishPending(_, landed)) => !landed && !ResumedSince(tape)
          case _ => true)
  }

  lemma Snoc(tape: seq<Mark>, m: Mark)
    ensures LastFinish(tape + [m]) == if IsFinish(m) then Some(m) else LastFinish(tape)
    ensures LastIntent(tape + [m]) == if m.FinishPending? then Some(m.text) else LastIntent(tape)
    ensures ResumedSince(tape + [m]) == (!IsFinish(m) && (m.Resumed? || ResumedSince(tape)))
  {
    assert (tape + [m])[..|tape|] == tape;
  }

  lemma TapeGrows(tape: seq<Mark>, m: Mark)
    requires forall i: nat | i < |tape| :: Answers(tape, i) && BeatIsFree(tape, i)
    requires m.Finished? ==> LastIntent(tape) == Some(m.text)
    requires m.Beat? ==>
               match LastFinish(tape)
               case Some(FinishPending(_, landed)) => !landed && !ResumedSince(tape)
               case _ => true
    ensures forall i: nat | i < |tape + [m]| :: Answers(tape + [m], i) && BeatIsFree(tape + [m], i)
  {
    forall i: nat | i < |tape + [m]| ensures Answers(tape + [m], i) && BeatIsFree(tape + [m], i) {
      if i < |tape| {
        assert Answers(tape, i) && BeatIsFree(tape, i);
        assert (tape + [m])[..i] == tape[..i];
      } else {
        assert (tape + [m])[..i] == tape;
      }
    }
  }

  lemma NotedSound(l: Life, m: Mark, w: Appended)
    requires Sound(l) && l.run.Some? && IsFinish(m)
    requires m.Finished? ==> LastIntent(l.tape) == Some(m.text)
    requires m.FinishPending? ==> !l.run.value.finishing && !l.run.value.finished && m.landed == (w == Landed)
    ensures forall i: nat | i < |Noted(l.tape, m, w)| :: Answers(Noted(l.tape, m, w), i) && BeatIsFree(Noted(l.tape, m, w), i)
    ensures m.FinishPending? && w != Landed ==> RunSound(Noted(l.tape, m, w), l.run.value)
    ensures m.Finished? && !l.run.value.authority ==> RunSound(Noted(l.tape, m, w), l.run.value)
  {
    Snoc(l.tape, m);
    TapeGrows(l.tape, m);
  }

  lemma FinishKeeps(l: Life, text: string, env: FinishEnv)
    requires Sound(l)
    ensures Sound(Finish(l, text, env).0)
  {
    if !env.running && l.run.Some? && !l.run.value.finished {
      var (l1, e) := Intend(l, text, env.intent);
      if !l.run.value.finishing {
        NotedSound(l, FinishPending(text, env.intent == Landed), env.intent);
        Snoc(l.tape, FinishPending(text, env.intent == Landed));
      }
      assert Sound(l1);
      if e.None? {
        NotedSound(l1, Finished(l1.run.value.text.value), env.finish);
        Snoc(l1.tape, Finished(l1.run.value.text.value));
      }
      hide Answers, BeatIsFree, LastFinish, LastIntent, ResumedSince;
    }
  }

  lemma ResumeKeeps(l: Life, read: bool, w: Appended)
    requires Sound(l)
    ensures Sound(Resume(l, read, w).0)
  {
    Snoc(l.tape, Resumed);
    TapeGrows(l.tape, Resumed);
    IntentIsFinish(l.tape);
    hide Answers, BeatIsFree, LastFinish, LastIntent, ResumedSince;
  }

  lemma {:induction false} IntentIsFinish(tape: seq<Mark>)
    ensures LastFinish(tape).Some? && LastFinish(tape).value.FinishPending? ==> LastIntent(tape) == Some(LastFinish(tape).value.text)
    decreases |tape|
  {
    if tape != [] {
      IntentIsFinish(tape[..|tape| - 1]);
    }
  }

  lemma BeginKeeps(l: Life)
    requires Sound(l)
    ensures Sound(Begin(l).0)
  {
    if Begin(l).1.None? {
      Snoc(l.tape, Beat);
      TapeGrows(l.tape, Beat);
    }
    hide Answers, BeatIsFree, LastFinish, LastIntent, ResumedSince;
  }

  // ---------------------------------------------------------------- runs

  datatype Op =
    | DoFinish(text: string, env: FinishEnv)
    | DoRelease(running: bool)
    | DoResume(read: bool, w: Appended)
    | DoBeat
    | DoStop

  function Apply(l: Life, op: Op): Life {
    match op
    case DoFinish(text, env) => Finish(l, text, env).0
    case DoRelease(running) => Release(l, running).0
    case DoResume(read, w) => Resume(l, read, w).0
    case DoBeat => Begin(l).0
    case DoStop => l.(run := None)
  }

  function Play(l: Life, ops: seq<Op>): Life
    decreases |ops|
  {
    if ops == [] then l else Play(Apply(l, ops[0]), ops[1..])
  }

  lemma {:induction false} PlayKeeps(l: Life, ops: seq<Op>)
    requires Sound(l)
    ensures Sound(Play(l, ops))
    decreases |ops|
  {
    if ops != [] {
      match ops[0] {
        case DoFinish(text, env) => FinishKeeps(l, text, env);
        case DoResume(read, w) => ResumeKeeps(l, read, w);
        case DoBeat => BeginKeeps(l);
        case _ =>
      }
      assert Sound(Apply(l, ops[0]));
      hide Sound, Apply;
      PlayKeeps(Apply(l, ops[0]), ops[1..]);
    }
  }

  /**
   Over every run of beats, finishes, retries, releases, resumes and stops, with failed and
   kept appends: each finish on the tape carries the text of the last intent before it, and no
   beat comes after an intent that no finish answered, except after one whose append failed,
   and then only until the session is resumed. Authority is held exactly by a run that is
   neither finishing nor finished.
   */
  lemma {:induction false} IntentIsBinding(ops: seq<Op>, i: nat)
    requires i < |Play(Life([], Some(OPEN)), ops).tape|
    ensures var l := Play(Life([], Some(OPEN)), ops);
            && Answers(l.tape, i)
            && BeatIsFree(l.tape, i)
            && (l.run.Some? ==> (l.run.value.authority <==> !l.run.value.finishing && !l.run.value.finished))
  {
    PlayKeeps(Life([], Some(OPEN)), ops);
    hide Play;
  }
}

/** The same session as an object with the fields of its live run. */
module SessionObjects {
  import opened Basics
  import opened SessionLives

  class AgentSession {
    var tape: seq<Mark>
    var run: Option<Run>

    function View(): Life
      reads this
    {
      Life(tape, run)
    }

    constructor ()
      ensures View() == Life([], Some(OPEN))
    {
      tape, run := [], Some(OPEN);
    }

    method Append(mark: Mark, w: Appended) returns (ok: bool)
      modifies this`tape
      ensures tape == Noted(old(tape), mark, w) && ok == (w == Landed)
    {
      if w != Lost {
        tape := tape + [mark];
      }
      return w == Landed;
    }

    method FinishSession(text: string, env: FinishEnv) returns (error: Option<Error>)
      modifies this
      ensures (View(), error) == Finish(old(View()), text, env)
    {
      if env.running {
        return Some(Busy);
      }
      if run.None? {
        return Some(NotOpen);
      }
      if run.value.finished {
        return Some(AlreadyFinished);
      }
      if !run.value.finishing {
        var noted := Append(FinishPending(text, env.intent == Landed), env.intent);
        if !noted {
          return Some(Io);
        }
        run := Some(run.value.(finishing := true, text := Some(text), authority := false));
      }
      if run.value.text.None? {
        return Some(Finishing);
      }
      if !env.closures {
        return Some(Io);
      }
      var noted := Append(Finished(run.value.text.value), env.finish);
      if !noted {
        return Some(Io);
      }
      run := Some(run.value.(finished := true, finishing := false));
      return None;
    }

    method ReleaseSession(running: bool) returns (error: Option<Error>)
      modifies this`run
      ensures (View(), error) == Release(old(View()), running)
    {
      if running {
        return Some(Busy);
      }
      if run.None? {
        return Some(NotOpen);
      }
      if !run.value.finished {
        return Some(NotFinished);
      }
      run := None;
      return None;
    }

    method PendingFinish() returns (mark: Option<Mark>)
      ensures mark == LastFinish(tape)
    {
      var i := |tape|;
      assert tape[..i] == tape;
      while i > 0
        invariant 0 <= i <= |tape|
        invariant LastFinish(tape) == LastFinish(tape[..i])
      {
        i := i - 1;
        assert tape[..i + 1][..i] == tape[..i];
        if IsFinish(tape[i]) {
          return Some(tape[i]);
        }
      }
      return None;
    }

    method ResumeSession(read: bool, w: Appended) returns (error: Option<Error>)
      modifies this
      ensures (View(), error) == Resume(old(View()), read, w)
    {
      if run.Some? {
        return Some(Duplicate);
      }
      if !read {
        return Some(Io);
      }
      var last := PendingFinish();
      hide LastFinish;
      var noted := Append(Resumed, w);
      if !noted {
        return Some(Io);
      }
      run := Some(OPEN);
      if last.Some? && last.value.FinishPending? {
        run := Some(Run(false, true, Some(last.value.text), false));
      }
      return None;
    }

    method BeginBeat() returns (error: Option<Error>)
      modifies this`tape
      ensures (View(), error) == Begin(old(View()))
    {
      if run.None? {
        return Some(NotOpen);
      }
      if run.value.finished {
        return Some(AlreadyFinished);
      }
      if run.value.finishing {
        return Some(Finishing);
      }
      if !run.value.authority {
        return Some(NotOpen);
      }
      tape := tape + [Beat];
      return None;
    }
  }
}
