/** Go error values as trees, errors.As / errors.Is over them, and the two retry classifiers. */
module ErrorTrees {
  import opened Text

  datatype FieldError = FieldError(field: string, code: string, message: string)

  /**
   * Every error shape the pipeline builds or receives. `PermanentError` and `TransientError`
   * hide their cause: both unwrap to a fixed sentinel.
   */
  datatype Err =
    | Opaque(text: string)
    | PermanentSentinel
    | TransientSentinel
    | PermanentError(reason: string, response: string, cause: Option<Err>)
    | TransientError(response: string, cause: Option<Err>)
    | Wrapped(text: string, inner: Err)
    | Joined(errs: seq<Err>)
    | PublishError(transient: bool, inner: Err)
    | ValidationError(fields: seq<FieldError>)

  datatype Kind =
    | PermanentSentinelKind | TransientSentinelKind | PermanentKind | TransientKind | PublishKind | ValidationKind

  predicate Matches(e: Err, kind: Kind) {
    match kind
    case PermanentSentinelKind => e.PermanentSentinel?
    case TransientSentinelKind => e.TransientSentinel?
    case PermanentKind => e.PermanentError?
    case TransientKind => e.TransientError?
    case PublishKind => e.PublishError?
    case ValidationKind => e.ValidationError?
  }

  /** errors.As: the first match of a depth-first walk that follows Unwrap. */
  function As(e: Err, kind: Kind): (found: Option<Err>)
    ensures found.Some? ==> Matches(found.value, kind)
    decreases e, 1
  {
    if Matches(e, kind) then Some(e)
    else match e
      case PermanentError(_, _, _) => if kind.PermanentSentinelKind? then Some(PermanentSentinel) else None
      case TransientError(_, _) => if kind.TransientSentinelKind? then Some(TransientSentinel) else None
      case Wrapped(_, inner) => As(inner, kind)
      case PublishError(_, inner) => As(inner, kind)
      case Joined(errs) => AsFirst(errs, kind)
      case _ => None
  }

  function AsFirst(errs: seq<Err>, kind: Kind): (found: Option<Err>)
    ensures found.Some? ==> Matches(found.value, kind)
    decreases errs, 0
  {
    if errs == [] then None
    else
      var head := As(errs[0], kind);
      if head.Some? then head else AsFirst(errs[1..], kind)
  }

  /** errors.Is for one of the two sentinels. */
  predicate Is(e: Err, sentinel: Kind) {
    As(e, sentinel).Some?
  }

  /** The error's text. */
  function Message(e: Err): string
    decreases e, 1
  {
    match e
    case Opaque(text) => text
    case PermanentSentinel => "provider: permanent failure"
    case TransientSentinel => "provider: transient failure"
    case PermanentError(reason, _, None) => "provider: permanent failure: " + reason
    case PermanentError(reason, _, Some(c)) => "provider: permanent failure (" + reason + "): " + Message(c)
    case TransientError(_, None) => "provider: transient failure"
    case TransientError(_, Some(c)) => "provider: transient failure: " + Message(c)
    case Wrapped(text, _) => text
    case Joined(errs) => Messages(errs)
    case PublishError(_, inner) => Message(inner)
    case ValidationError(_) => "ingest: validation failed"
  }

  function Messages(errs: seq<Err>): string
    decreases errs, 0
  {
    if errs == [] then ""
    else if |errs| == 1 then Message(errs[0])
    else Message(errs[0]) + "\n" + Messages(errs[1..])
  }

  // --- What a tree holds -------------------------------------------------------------

  /** A node of this kind was put into the tree outside the hidden causes. */
  predicate Holds(e: Err, kind: Kind)
    decreases e, 1
  {
    || Matches(e, kind)
    || (e.Wrapped? && Holds(e.inner, kind))
    || (e.PublishError? && Holds(e.inner, kind))
    || (e.Joined? && SomeHolds(e.errs, kind))
  }

  predicate SomeHolds(errs: seq<Err>, kind: Kind)
    decreases errs, 0
  {
    errs != [] && (Holds(errs[0], kind) || SomeHolds(errs[1..], kind))
  }

  /** No joins: every node unwraps to at most one other. */
  predicate IsChain(e: Err) {
    match e
    case Wrapped(_, inner) => IsChain(inner)
    case PublishError(_, inner) => IsChain(inner)
    case Joined(_) => false
    case _ => true
  }

  /** errors.As finds a kind exactly when it was put there, or when a marked error implies the sentinel. */
  lemma {:induction false} AsFindsHeld(e: Err, kind: Kind)
    ensures As(e, kind).Some? <==>
            || Holds(e, kind)
            || (kind.PermanentSentinelKind? && Holds(e, PermanentKind))
            || (kind.TransientSentinelKind? && Holds(e, TransientKind))
    decreases e, 1
  {
    match e
    case Wrapped(_, inner) => AsFindsHeld(inner, kind);
    case PublishError(_, inner) => AsFindsHeld(inner, kind);
    case Joined(errs) => AsFirstFindsHeld(errs, kind);
    case _ =>
  }

  lemma {:induction false} AsFirstFindsHeld(errs: seq<Err>, kind: Kind)
    ensures AsFirst(errs, kind).Some? <==>
            || SomeHolds(errs, kind)
            || (kind.PermanentSentinelKind? && SomeHolds(errs, PermanentKind))
            || (kind.TransientSentinelKind? && SomeHolds(errs, TransientKind))
    decreases errs, 0
  {
    if errs != [] {
      AsFindsHeld(errs[0], kind);
      AsFirstFindsHeld(errs[1..], kind);
    }
  }

  // --- The two classifiers -------------------------------------------------------------

  datatype Class = ClassPermanent | ClassTransient

  /** retry.Classify: transient mark first, then permanent mark, else transient. */
  function Classify(err: Option<Err>): Class {
    if err.None? then ClassPermanent
    else if Is(err.value, TransientSentinelKind) then ClassTransient
    else if Is(err.value, PermanentSentinelKind) then ClassPermanent
    else ClassTransient
  }

  /** The order Dispatch uses itself: a PermanentError anywhere ends the loop, all else retries. */
  function DispatchClass(e: Err): Class {
    if As(e, PermanentKind).Some? then ClassPermanent else ClassTransient
  }

  predicate HoldsTransientMark(e: Err) {
    Holds(e, TransientKind) || Holds(e, TransientSentinelKind)
  }

  /**
   * The classifiers agree on a tree unless it holds a PermanentError next to a transient mark,
   * or a bare ErrPermanent with neither; on those two families they always differ.
   */
  lemma ClassifiersAgreeIff(e: Err)
    ensures Classify(Some(e)) == DispatchClass(e) <==>
            && !(Holds(e, PermanentKind) && HoldsTransientMark(e))
            && !(!Holds(e, PermanentKind) && Holds(e, PermanentSentinelKind) && !HoldsTransientMark(e))
  {
    AsFindsHeld(e, TransientSentinelKind);
    AsFindsHeld(e, PermanentSentinelKind);
    AsFindsHeld(e, PermanentKind);
  }

  lemma {:induction false} ChainHoldsOneMark(e: Err)
    requires IsChain(e)
    ensures Holds(e, PermanentKind) ==> !HoldsTransientMark(e) && !Holds(e, PermanentSentinelKind)
    ensures Holds(e, PermanentSentinelKind) ==> !HoldsTransientMark(e)
  {
    match e
    case Wrapped(_, inner) => ChainHoldsOneMark(inner);
    case PublishError(_, inner) => ChainHoldsOneMark(inner);
    case _ =>
  }

  /** On a chain they agree exactly when it does not end in a bare ErrPermanent. */
  lemma ClassifiersAgreeOnChains(e: Err)
    requires IsChain(e)
    ensures Classify(Some(e)) == DispatchClass(e) <==> !Holds(e, PermanentSentinelKind)
  {
    ClassifiersAgreeIff(e);
    ChainHoldsOneMark(e);
  }

  /** Neither classifier looks behind a marked error: its cause can be anything, even the opposite mark. */
  lemma CauseIsHidden(e: Err, cause: Option<Err>)
    requires e.PermanentError? || e.TransientError?
    ensures Classify(Some(e.(cause := cause))) == Classify(Some(e))
    ensures Classify(Some(e)) == DispatchClass(e) == DispatchClass(e.(cause := cause))
    ensures DispatchClass(e) == if e.PermanentError? then ClassPermanent else ClassTransient
  {
    assert As(e, PermanentKind).Some? <==> e.PermanentError?;
  }

  /** The smallest trees on which the classifiers part, one of each family. */
  lemma ClassifiersPart(reason: string)
    ensures Classify(Some(PermanentSentinel)) != DispatchClass(PermanentSentinel)
    ensures var both := Joined([PermanentError(reason, "", None), TransientError("", None)]);
            Classify(Some(both)) != DispatchClass(both)
  {
    var both := Joined([PermanentError(reason, "", None), TransientError("", None)]);
    ClassifiersAgreeIff(PermanentSentinel);
    ClassifiersAgreeIff(both);
    assert Holds(both.errs[0], PermanentKind) && SomeHolds(both.errs, PermanentKind);
    assert Holds(both.errs[1..][0], TransientKind) && SomeHolds(both.errs[1..], TransientKind);
    assert SomeHolds(both.errs, TransientKind);
    assert Holds(both, PermanentKind) && HoldsTransientMark(both);
  }
}
