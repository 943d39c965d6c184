/** withProcessingLifecycle: a job processor wrapped so that it announces its start and its end. */
module Lifecycle {

  /** What JavaScript code can raise: an Error, or any other value.  Showing another value as text, which String does,
      gives a text or raises something itself. */
  datatype Thrown = AnError(message: string) | Other(shown: Showing)
  datatype Showing = Shown(text: string) | Unshowable(thrown: Thrown)

  /** Where a raised value comes from: the processor, a payload builder of the hooks, or the conversion to an Error. */
  datatype Origin = Processor | Builder | Conversion
  datatype Fault = Fault(origin: Origin, thrown: Thrown)

  datatype End<+R> = Value(result: R) | Raised(fault: Fault)

  /** A payload builder either builds its payload or throws. */
  datatype Build = Built | Throws(thrown: Thrown)

  datatype Hooks<!R> = Hooks(started: Build, completed: R -> Build, failed: Fault -> Build)

  datatype Signal = Started | Completed | Failed

  /** toError gives an Error for what was raised, the raised Error itself if it is one. */
  predicate Convertible(f: Fault) { f.thrown.AnError? || f.thrown.shown.Shown? }

  /** What goes on from the catch block after toError: the error, or what showing the value raised. */
  function Converted(f: Fault): (g: Fault)
    ensures Convertible(f) ==> g.thrown.AnError?
  {
    match f.thrown
    case AnError(_) => f
    case Other(Shown(text)) => Fault(Conversion, AnError(text))
    case Other(Unshowable(thrown)) => Fault(Conversion, thrown)
  }

  /** No payload builder throws, whatever it is given. */
  ghost predicate Quiet<R(!new)>(h: Hooks<R>) {
    h.started.Built? && (forall r :: h.completed(r).Built?) && forall f :: h.failed(f).Built?
  }

  /** The dispatcher: it is asked to send signals and throws on the calls, by their number, that `refuses` names. */
  class Dispatcher {
    var asked: seq<Signal>
    const refuses: nat -> bool

    constructor (refuses: nat -> bool)
      ensures this.refuses == refuses && asked == []
    {
      this.refuses := refuses;
      asked := [];
    }

    /** Returns whether the dispatch threw. */
    method Dispatch(s: Signal) returns (threw: bool)
      modifies this
      ensures asked == old(asked) + [s] && threw == refuses(|old(asked)|)
    {
      threw := refuses(|asked|);
      asked := asked + [s];
    }

    /** Whatever the dispatcher does, the caller goes on. */
    method SafeDispatch(s: Signal)
      modifies this
      ensures asked == old(asked) + [s]
    {
      var _ := Dispatch(s);
    }

    /** One call of the wrapped processor, whose own end would be `bare`. */
    method Process<R>(bare: End<R>, h: Hooks<R>) returns (end: End<R>)
      modifies this
      ensures end == Wrapped(bare, h).0 && asked == old(asked) + Wrapped(bare, h).1
      ensures h.started.Throws? ==> end == Raised(Fault(Builder, h.started.thrown)) && asked == old(asked)
      ensures h.started.Built? && bare.Value? && h.completed(bare.result).Built? ==>
        end == bare && asked == old(asked) + [Started, Completed]
      ensures h.started.Built? && (bare.Raised? || h.completed(bare.result).Throws?) ==>
        var rawError := if bare.Raised? then bare.fault else Fault(Builder, h.completed(bare.result).thrown);
        match rawError.thrown
        case Other(Unshowable(t)) => end == Raised(Fault(Conversion, t)) && asked == old(asked) + [Started]
        case Other(Shown(text)) =>
          var error := Fault(Conversion, AnError(text));
          if h.failed(error).Throws? then
            end == Raised(Fault(Builder, h.failed(error).thrown)) && asked == old(asked) + [Started]
          else end == Raised(error) && asked == old(asked) + [Started, Failed]
        case AnError(_) =>
          if h.failed(rawError).Throws? then
            end == Raised(Fault(Builder, h.failed(rawError).thrown)) && asked == old(asked) + [Started]
          else end == Raised(rawError) && asked == old(asked) + [Started, Failed]
    {
      if h.started.Throws? {
        return Raised(Fault(Builder, h.started.thrown));
      }
      SafeDispatch(Started);
      var rawError: Fault;
      match bare {
        case Value(result) =>
          var completed := h.completed(result);
          if completed.Built? {
            SafeDispatch(Completed);
            return bare;
          }
          rawError := Fault(Builder, completed.thrown);
        case Raised(fault) =>
          rawError := fault;
      }
      var error := Converted(rawError);
      if Convertible(rawError) {
        var failed := h.failed(error);
        if failed.Throws? {
          return Raised(Fault(Builder, failed.thrown));
        }
        SafeDispatch(Failed);
      }
      end := Raised(error);
    }

    /** A job whose successive bare attempts would end as `ends`, retried until one succeeds or all are used up. */
    method RunJob<R(!new)>(ends: seq<End<R>>, attempts: nat, h: Hooks<R>) returns (succeeded: bool, failures: nat)
      requires |ends| >= attempts && Quiet(h)
      modifies this
      ensures succeeded <==> exists i :: 0 <= i < attempts && ends[i].Value?
      ensures failures <= attempts && AllRaised(ends[..failures])
      ensures asked == old(asked) + SignalsOf(ends[..failures]) + if succeeded then [Started, Completed] else []
      ensures if succeeded then failures < attempts && ends[failures].Value? else failures == attempts
    {
      failures := 0;
      while failures < attempts
        invariant failures <= attempts
        invariant AllRaised(ends[..failures])
        invariant asked == old(asked) + SignalsOf(ends[..failures])
      {
        var end := Process(ends[failures], h);
        if end.Value? {
          return true, failures;
        }
        assert ends[..failures + 1][..failures] == ends[..failures];
        failures := failures + 1;
      }
      succeeded := false;
      assert forall i :: 0 <= i < attempts ==> ends[i] == ends[..attempts][i];
      assert asked == old(asked) + SignalsOf(ends[..failures]) + [];
    }
  }

  predicate AllRaised<R>(ends: seq<End<R>>) { forall i :: 0 <= i < |ends| ==> ends[i].Raised? }

  /** What the catch block gets, if anything. */
  function Caught<R>(bare: End<R>, h: Hooks<R>): End<()> {
    match bare
    case Raised(f) => Raised(f)
    case Value(result) =>
      match h.completed(result) case Built => Value(()) case Throws(t) => Raised(Fault(Builder, t))
  }

  /** How the wrapped call ends, and the dispatches it asks for. */
  function Wrapped<R>(bare: End<R>, h: Hooks<R>): (End<R>, seq<Signal>) {
    if h.started.Throws? then (Raised(Fault(Builder, h.started.thrown)), []) else
    match Caught(bare, h)
    case Value(_) => (bare, [Started, Completed])
    case Raised(f) =>
      if !Convertible(f) then (Raised(Converted(f)), [Started]) else
      match h.failed(Converted(f))
      case Throws(t) => (Raised(Fault(Builder, t)), [Started])
      case Built => (Raised(Converted(f)), [Started, Failed])
  }

  /** The dispatches of failed attempts whose payloads can be built. */
  function SignalsOf<R>(ends: seq<End<R>>): seq<Signal>
    requires AllRaised(ends)
  {
    if ends == [] then [] else
    var last := ends[|ends| - 1];
    SignalsOf(ends[..|ends| - 1]) + if Convertible(last.fault) then [Started, Failed] else [Started]
  }

  function FailedTimes(k: nat): seq<Signal> {
    if k == 0 then [] else FailedTimes(k - 1) + [Started, Failed]
  }

  /** Wrapping leaves the outcome of a processor alone exactly when no builder that the call uses throws and what the
      processor raised, if anything, is an Error; whether dispatches succeed never matters. */
  lemma WrappingIsTransparent<R>(bare: End<R>, h: Hooks<R>)
    requires bare.Raised? ==> bare.fault.origin == Processor
    ensures Wrapped(bare, h).0 == bare
            <==> && h.started.Built?
                 && match bare
                    case Value(result) => h.completed(result).Built?
                    case Raised(f) => f.thrown.AnError? && h.failed(f).Built?
  {}

  /** A failed attempt announces its failure exactly when its builders build and the raised value can be shown. */
  lemma FailureAnnounced<R>(bare: End<R>, h: Hooks<R>)
    requires bare.Raised?
    ensures Failed in Wrapped(bare, h).1
            <==> h.started.Built? && Convertible(bare.fault) && h.failed(Converted(bare.fault)).Built?
    ensures Completed !in Wrapped(bare, h).1
  {}

  /** The dispatches of failed attempts are started and failed for each of them exactly when every raised value can be
      shown; otherwise they are fewer. */
  lemma {:induction false} FailuresAnnounced<R>(ends: seq<End<R>>)
    requires AllRaised(ends)
    ensures SignalsOf(ends) == FailedTimes(|ends|) <==> forall i :: 0 <= i < |ends| ==> Convertible(ends[i].fault)
    ensures |SignalsOf(ends)| <= |FailedTimes(|ends|)|
  {
    if ends != [] {
      var before, last := ends[..|ends| - 1], ends[|ends| - 1];
      FailuresAnnounced(before);
      assert forall i :: 0 <= i < |before| ==> ends[i] == before[i];
      var k := |FailedTimes(|before|)|;
      assert FailedTimes(|ends|)[..k] == FailedTimes(|before|);
      if SignalsOf(ends) == FailedTimes(|ends|) {
        assert |SignalsOf(before)| == k;
        assert SignalsOf(ends)[..k] == SignalsOf(before);
      }
    }
  }

  /** Even a processor that succeeded is reported as failed, and its job retried, when its completed payload cannot be
      built. */
  lemma CompletedBuilderFails<R>(result: R, message: string)
    ensures Wrapped(Value(result), Hooks(Built, _ => Throws(AnError(message)), _ => Built))
            == (Raised(Fault(Builder, AnError(message))), [Started, Failed])
  {}

  /** With builders that never throw, a processor that raises a text ends with an Error of that text, and one that
      raises a value which cannot be shown ends with what showing it raised, its failure never announced. */
  lemma OtherValuesConverted<R>(text: string, thrown: Thrown)
    ensures var h: Hooks<R> := Hooks(Built, _ => Built, _ => Built);
      && Wrapped(Raised(Fault(Processor, Other(Shown(text)))), h)
         == (Raised(Fault(Conversion, AnError(text))), [Started, Failed])
      && Wrapped(Raised(Fault(Processor, Other(Unshowable(thrown)))), h)
         == (Raised(Fault(Conversion, thrown)), [Started])
  {}
}
