/** What each session operation achieves, and the order in which finish marks can follow each other. */
module SessionEffects {
  import opened Basics
  import opened SessionLives

  // ---------------------------------------------------------------- what a finish does

  /** The text a finish is about: the one of the intent it takes up, or its own. */
  function Said(l: Life, text: string): Option<string>
    requires l.run.Some?
  {
    if l.run.value.finishing then l.run.value.text else Some(text)
  }

  predicate Finishable(l: Life, running: bool) {
    !running && l.run.Some? && !l.run.value.finished
  }

  /**
   A finish succeeds exactly if the session is idle, open and unfinished, its intent is on the
   tape or formed already, and its closures and its last mark go through. It then leaves the
   intent, if that was new, and one mark with the intended text, and a finished run without authority.
   */
  lemma FinishIff(l: Life, text: string, env: FinishEnv)
    requires Sound(l)
    ensures var (l', e) := Finish(l, text, env);
            && (e == None <==>
                  && Finishable(l, env.running) && (l.run.value.finishing || env.intent == Landed)
                  && env.closures && env.finish == Landed)
            && (e == Some(Busy) <==> env.running)
            && (e == Some(NotOpen) <==> !env.running && l.run.None?)
            && (e == Some(AlreadyFinished) <==> !env.running && l.run.Some? && l.run.value.finished)
            && (e.Some? ==> e.value in {Busy, NotOpen, AlreadyFinished, Io})
            && (e == None ==>
                  && Finishable(l, env.running) && Said(l, text).Some? && l'.run == Some(Run(true, false, Said(l, text), false))
                  && l'.tape == l.tape + (if l.run.value.finishing then [] else [FinishPending(text, true)]) + [Finished(Said(l, text).value)])
  {
    assert l.run.Some? && l.run.value.finishing ==> l.run.value.text.Some?;
    hide LastFinish, LastIntent, ResumedSince, Answers, BeatIsFree;
  }

  /**
   What a finish leaves that is refused or fails: nothing, if it is refused; the intent mark alone,
   if that is where it failed, and authority is kept; and otherwise a run that has lost its
   authority and holds the intended text, with the intent on the tape.
   */
  lemma FinishFails(l: Life, text: string, env: FinishEnv)
    requires Sound(l) && Finish(l, text, env).1.Some?
    ensures var (l', e) := Finish(l, text, env);
            && (!Finishable(l, env.running) ==> l' == l)
            && (Finishable(l, env.running) && !l.run.value.finishing && env.intent != Landed ==>
                  l' == l.(tape := Noted(l.tape, FinishPending(text, false), env.intent)))
            && (Finishable(l, env.running) && (l.run.value.finishing || env.intent == Landed) ==>
                  && Said(l, text).Some? && l'.run == Some(Run(false, true, Said(l, text), false))
                  && var intended := l.tape + if l.run.value.finishing then [] else [FinishPending(text, true)];
                     l'.tape == if env.closures then Noted(intended, Finished(Said(l, text).value), env.finish) else intended)
  {
    assert l.run.Some? && l.run.value.finishing ==> l.run.value.text.Some?;
    hide LastFinish, LastIntent, ResumedSince, Answers, BeatIsFree;
  }

  /** A session is released exactly if it is idle and finished, and then is closed; its tape stays. */
  lemma ReleaseIff(l: Life, running: bool)
    ensures var (l', e) := Release(l, running);
            && (e == None <==> !running && l.run.Some? && l.run.value.finished)
            && l' == (if e == None then Life(l.tape, None) else l)
            && (e.Some? ==> (e == Some(Busy) <==> running) && (e == Some(NotOpen) <==> !running && l.run.None?)
                            && e.value in {Busy, NotOpen, NotFinished})
  {
  }

  /** A beat begins exactly in a run that holds authority, and leaves its mark. */
  lemma BeginIff(l: Life)
    requires Sound(l)
    ensures var (l', e) := Begin(l);
            && (e == None <==> l.run.Some? && l.run.value.authority)
            && l' == (if e == None then l.(tape := l.tape + [Beat]) else l)
            && (e == Some(AlreadyFinished) <==> l.run.Some? && l.run.value.finished)
            && (e == Some(Finishing) <==> l.run.Some? && l.run.value.finishing)
            && (e == Some(NotOpen) <==> l.run.None?)
  {
    hide LastFinish, LastIntent, ResumedSince, Answers, BeatIsFree;
  }

  /** The intent that the tape still owes an answer. */
  function Owed(tape: seq<Mark>): Option<string> {
    match LastFinish(tape)
    case Some(FinishPending(text, _)) => Some(text)
    case _ => None
  }

  /** A closed session is opened exactly if its tape is read and marked: with authority if the tape owes no finish, else bound to finish. */
  lemma ResumeIff(l: Life, read: bool, w: Appended)
    ensures var (l', e) := Resume(l, read, w);
            && (e == None <==> l.run.None? && read && w == Landed)
            && (e == Some(Duplicate) <==> l.run.Some?)
            && (e.Some? ==> e.value in {Duplicate, Io} && l'.run == l.run)
            && l'.tape == (if l.run.None? && read then Noted(l.tape, Resumed, w) else l.tape)
            && (e == None ==>
                  && l'.run.Some?
                  && (if Owed(l.tape).Some? then l'.run == Some(Run(false, true, Owed(l.tape), false))
                      else l'.run == Some(Run(false, false, None, true))))
  {
    hide LastFinish;
  }

  // ---------------------------------------------------------------- an intent outlives its process

  const GOOD := FinishEnv(false, Landed, true, Landed)

  /**
   A finish whose intent landed and that then failed anywhere: asked again with any other text,
   in the same engagement or after a stop and a resume, it completes with the first text.
   */
  lemma IntentIsTakenUp(l: Life, text: string, env: FinishEnv, other: string)
    requires Sound(l) && Finishable(l, env.running) && !l.run.value.finishing && env.intent == Landed
    requires Finish(l, text, env).1.Some? && env.finish != Kept
    ensures var l1 := Finish(l, text, env).0;
            && Finish(l1, other, GOOD) == (Life(l1.tape + [Finished(text)], Some(Run(true, false, Some(text), false))), None)
            && var (l2, e2) := Resume(l1.(run := None), true, Landed);
               && e2 == None && Begin(l2) == (l2, Some(Finishing))
               && Finish(l2, other, GOOD) == (Life(l1.tape + [Resumed, Finished(text)], Some(Run(true, false, Some(text), false))), None)
  {
    FinishFails(l, text, env);
    var l1 := Finish(l, text, env).0;
    Snoc(l.tape, FinishPending(text, true));
    assert l1.tape == l.tape + [FinishPending(text, true)];
    ResumeIff(l1.(run := None), true, Landed);
    var l2 := Resume(l1.(run := None), true, Landed).0;
    hide LastFinish, LastIntent, ResumedSince, Sound, Resume;
    assert l2.tape + [Finished(text)] == l1.tape + [Resumed, Finished(text)];
  }

  // ---------------------------------------------------------------- the order of finish marks

  /** Whether the last finish mark binds what comes next: an intent that landed, or one that a resume took up. */
  predicate Binds(tape: seq<Mark>) {
    match LastFinish(tape)
    case Some(FinishPending(_, landed)) => landed || ResumedSince(tape)
    case _ => false
  }

  /**
   A finish mark in its place: after a binding intent only its answer; after any other intent, and
   at the start, only an intent; after an answer an intent, or the same answer once more before
   the session is resumed.
   */
  predicate InPlace(tape: seq<Mark>, i: nat)
    requires i < |tape|
  {
    var before := tape[..i];
    match tape[i]
    case FinishPending(_, _) => !Binds(before)
    case Finished(text) =>
      (match LastFinish(before)
       case Some(FinishPending(intended, _)) => Binds(before) && text == intended
       case Some(Finished(said)) => !ResumedSince(before) && text == said
       case _ => false)
    case _ => true
  }

  predicate AllInPlace(tape: seq<Mark>) {
    forall i: nat | i < |tape| :: InPlace(tape, i)
  }

  /** The run and the tape agree on what may be marked next. */
  predicate RunInPlace(tape: seq<Mark>, r: Run) {
    && (r.authority ==> !Binds(tape))
    && (r.finishing ==>
          match LastFinish(tape)
          case Some(FinishPending(text, _)) => Binds(tape) && r.text == Some(text)
          case Some(Finished(text)) => !ResumedSince(tape) && r.text == Some(text)
          case _ => false)
  }

  ghost predicate Ordered(l: Life) {
    Sound(l) && AllInPlace(l.tape) && (l.run.Some? ==> RunInPlace(l.tape, l.run.value))
  }

  lemma PlaceGrows(tape: seq<Mark>, m: Mark)
    requires AllInPlace(tape) && InPlace(tape + [m], |tape|)
    ensures AllInPlace(tape + [m])
  {
    hide InPlace;
    forall i: nat | i < |tape + [m]| ensures InPlace(tape + [m], i) {
      if i < |tape| {
        assert InPlace(tape, i);
        PlaceStays(tape, m, i);
      }
    }
  }

  lemma PlaceStays(tape: seq<Mark>, m: Mark, i: nat)
    requires i < |tape|
    ensures InPlace(tape + [m], i) == InPlace(tape, i)
  {
    assert (tape + [m])[..i] == tape[..i];
  }

  /** What one more mark does to the place of the next. */
  lemma Marked(tape: seq<Mark>, m: Mark)
    ensures (tape + [m])[..|tape|] == tape
    ensures Binds(tape + [m]) == (if m.FinishPending? then m.landed
                                  else !m.Finished? && (Binds(tape) || (m.Resumed? && LastFinish(tape).Some? && LastFinish(tape).value.FinishPending?)))
    ensures LastFinish(tape + [m]) == if IsFinish(m) then Some(m) else LastFinish(tape)
    ensures ResumedSince(tape + [m]) == (!IsFinish(m) && (m.Resumed? || ResumedSince(tape)))
  {
    Snoc(tape, m);
    assert (tape + [m])[..|tape|] == tape;
  }

  lemma IntendOrdered(l: Life, text: string, w: Appended)
    requires Ordered(l) && l.run.Some? && !l.run.value.finished && !l.run.value.finishing
    ensures var l1 := Intend(l, text, w).0; AllInPlace(l1.tape) && l1.run.Some? && RunInPlace(l1.tape, l1.run.value)
  {
    Marked(l.tape, FinishPending(text, w == Landed));
    assert InPlace(l.tape + [FinishPending(text, w == Landed)], |l.tape|);
    PlaceGrows(l.tape, FinishPending(text, w == Landed));
  }

  lemma AnswerOrdered(tape: seq<Mark>, r: Run, text: string)
    requires AllInPlace(tape) && RunInPlace(tape, r) && r.finishing && r.text == Some(text) && !r.authority
    ensures AllInPlace(tape + [Finished(text)]) && RunInPlace(tape + [Finished(text)], r)
    ensures RunInPlace(tape + [Finished(text)], r.(finished := true, finishing := false))
  {
    Marked(tape, Finished(text));
    assert InPlace(tape + [Finished(text)], |tape|);
    PlaceGrows(tape, Finished(text));
  }

  lemma FinishOrdered(l: Life, text: string, env: FinishEnv)
    requires Ordered(l)
    ensures Ordered(Finish(l, text, env).0)
  {
    FinishKeeps(l, text, env);
    if Finishable(l, env.running) {
      var (l1, e) := Intend(l, text, env.intent);
      if !l.run.value.finishing {
        IntendOrdered(l, text, env.intent);
      }
      assert !l1.run.value.finishing ==> e.Some?;
      hide AllInPlace, RunInPlace, LastFinish, LastIntent, ResumedSince, Answers, BeatIsFree;
      if e.None? && l1.run.value.text.Some? {
        AnswerOrdered(l1.tape, l1.run.value, l1.run.value.text.value);
      }
    }
  }

  lemma OtherMark(tape: seq<Mark>, m: Mark)
    requires AllInPlace(tape) && !IsFinish(m)
    ensures AllInPlace(tape + [m])
  {
    PlaceGrows(tape, m);
  }

  lemma ApplyOrdered(l: Life, op: Op)
    requires Ordered(l)
    ensures Ordered(Apply(l, op))
  {
    match op {
      case DoFinish(text, env) => FinishOrdered(l, text, env);
      case DoResume(read, w) =>
        ResumeKeeps(l, read, w);
        OtherMark(l.tape, Resumed);
        Marked(l.tape, Resumed);
        hide AllInPlace, LastIntent, ResumedSince, Answers, BeatIsFree;
      case DoBeat =>
        BeginKeeps(l);
        OtherMark(l.tape, Beat);
        Marked(l.tape, Beat);
        hide AllInPlace, LastIntent, ResumedSince, Answers, BeatIsFree;
      case _ =>
    }
  }

  lemma {:induction false} PlayOrdered(l: Life, ops: seq<Op>)
    requires Ordered(l)
    ensures Ordered(Play(l, ops))
    decreases |ops|
  {
    hide Ordered, Apply;
    if ops != [] {
      ApplyOrdered(l, ops[0]);
      PlayOrdered(Apply(l, ops[0]), ops[1..]);
    }
  }

  /**
   Over every run: an intent that landed, or that a resume has taken up, is answered next and with
   its own text, by whichever process comes to it; no answer comes without an intent.
   */
  lemma MarksAreOrdered(ops: seq<Op>)
    ensures AllInPlace(Play(Life([], Some(OPEN)), ops).tape)
  {
    assert Ordered(Life([], Some(OPEN)));
    hide Ordered, Play, AllInPlace;
    PlayOrdered(Life([], Some(OPEN)), ops);
    OrderedPlaces(Play(Life([], Some(OPEN)), ops));
  }

  lemma OrderedPlaces(l: Life)
    requires Ordered(l)
    ensures AllInPlace(l.tape)
  {
  }
}
