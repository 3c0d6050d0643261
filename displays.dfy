/**
 * The argument checks of the scope display blocks: how a Scope resolves its
 * number of inputs and of plotted lines from `nin`, `vector`, `styles` and
 * `labels`, the label clean-up of its legend, the signal count check of each
 * step, and the index check of the single-input XY scope.
 */
module Displays {
  import opened Wrappers

  /** The Python values the arguments can hold, as far as the checks look at them. */
  datatype Value =
    | Str(s: string)
    | List(elems: seq<Value>)
    | Tuple(elems: seq<Value>)
    | Int(i: int)
    | Bool(b: bool)
    | Float(f: real)
    | Dict(size: nat)

  /** The exceptions the checks raise, with their messages. */
  datatype Exception =
    | ValueError(msg: string)
    | AssertionError(msg: string)
    | RuntimeError(msg: string)
    | IndexError(msg: string)

  /** A result, or the exception raised instead. */
  datatype Outcome<+T> = Ok(value: T) | Raise(exc: Exception)

  /** A check that passes or raises. */
  datatype Check = Pass | Fail(exc: Exception)

  const ListifyMessage := "unknown argument to listify"
  const StyleMessage := "need one style per input"
  const LabelMessage := "need one label per input"
  const VectorNinMessage := "if vector is given, nin must be 1"
  const VectorTypeMessage := "vector must be an int or list of indices"
  const VectorMatchMessage := "vector argument doesnt match nplots"
  const StepMessage := "number of signals to plot doesnt match init parameters"
  const IndicesMessage := "indices must have 2 elements"
  const IndexMessage := "string index out of range"

  // ---------------------------------------------------------------------------
  // listify

  /** The values listify accepts: a string, a list or a tuple. */
  predicate Listable(v: Value) {
    v.Str? || v.List? || v.Tuple?
  }

  /** A string becomes a one-entry list, a list or tuple is kept, anything else is refused. */
  function Listify(v: Value): (r: Outcome<seq<Value>>)
    ensures r.Ok? <==> Listable(v)
    ensures r.Raise? ==> r.exc == ValueError(ListifyMessage)
    ensures v.Str? ==> r == Ok([v])
    ensures v.List? || v.Tuple? ==> r == Ok(v.elems)
  {
    match v
    case Str(_) => Ok([v])
    case List(elems) => Ok(elems)
    case Tuple(elems) => Ok(elems)
    case _ => Raise(ValueError(ListifyMessage))
  }

  /**
   * The styles argument as documented: a single style is a string or a dict
   * of line options, and either stands for one line; a list or tuple holds
   * one style per line.
   */
  function ListifyStyles(v: Value): (r: Outcome<seq<Value>>)
    ensures r.Ok? <==> Listable(v) || v.Dict?
    ensures v.Str? || v.Dict? ==> r == Ok([v])
    ensures Listable(v) ==> r == Listify(v)
  {
    if v.Dict? then Ok([v]) else Listify(v)
  }

  /** Python's len() of a listable value: characters of a string, entries of a list or tuple. */
  function PyLen(v: Value): nat
    requires Listable(v)
  {
    if v.Str? then |v.s| else |v.elems|
  }

  /**
   * How a styles or labels argument is counted: by `len` of the argument
   * as given, or by the number of entries listify makes of it.
   */
  datatype Counting = RawLen | EntryCount

  function Count(v: Value, counting: Counting): nat
    requires Listable(v)
  {
    match counting
    case RawLen => PyLen(v)
    case EntryCount => |Listify(v).value|
  }

  /** A string argument counts differently under the two countings; a list or tuple does not. */
  lemma CountingsDifferOnlyOnStrings(v: Value)
    requires Listable(v)
    ensures Count(v, EntryCount) == if v.Str? then 1 else Count(v, RawLen)
  {
  }

  /** The width of a `vector` argument: an int (a bool is one) or the length of a list. */
  function VectorWidth(v: Value): (w: Option<int>)
    ensures w.Some? <==> v.Int? || v.Bool? || v.List?
    ensures v.List? ==> w == Some(|v.elems|)
    ensures v.Int? ==> w == Some(v.i)
    ensures v.Bool? ==> w == Some(if v.b then 1 else 0)
  {
    match v
    case Int(i) => Some(i)
    case Bool(b) => Some(if b then 1 else 0)
    case List(elems) => Some(|elems|)
    case _ => None
  }

  // ---------------------------------------------------------------------------
  // Scope configuration

  /** What a Scope keeps: its input count, line count, per-line styles, labels and line slots. */
  datatype ScopeConfig = ScopeConfig(
    nin: int,
    nplots: int,
    styles: seq<Option<Value>>,
    labels: Option<seq<Value>>,
    lines: nat)

  /** Length of `[None] * n` in Python: a negative count gives an empty list. */
  function Slots(n: int): nat {
    if n > 0 then n else 0
  }

  function Entries(l: seq<Value>): (r: seq<Option<Value>>)
    ensures |r| == |l| && forall i :: 0 <= i < |l| ==> r[i] == Some(l[i])
  {
    seq(|l|, i requires 0 <= i < |l| => Some(l[i]))
  }

  /** The configuration stored once `nin` and `nplots` are known. */
  function Finish(nin: int, nplots: int, styles: Option<Value>, labels: Option<Value>): (c: ScopeConfig)
    requires styles.Some? ==> Listable(styles.value)
    requires labels.Some? ==> Listable(labels.value)
    ensures c.nin == nin && c.nplots == nplots
    ensures c.lines == Slots(nplots) && (nplots >= 0 ==> c.lines == nplots)
    ensures styles.None? ==> |c.styles| == c.lines && forall i :: 0 <= i < |c.styles| ==> c.styles[i].None?
    ensures styles.Some? ==> |c.styles| == |Listify(styles.value).value|
    ensures styles.Some? ==> forall i :: 0 <= i < |c.styles| ==> c.styles[i] == Some(Listify(styles.value).value[i])
    ensures labels.None? ==> c.labels.None?
    ensures labels.Some? ==> c.labels == Some(Listify(labels.value).value)
  {
    ScopeConfig(
      nin, nplots,
      if styles.Some? then Entries(Listify(styles.value).value) else seq(Slots(nplots), _ => None),
      if labels.Some? then Some(Listify(labels.value).value) else None,
      Slots(nplots))
  }

  /**
   * The Scope's resolution of its arguments: styles, then labels, each
   * listified and checked against (or else fixing) the line count known so
   * far; then `vector`, whose width must match it; with nothing given there
   * is one line on one input.
   */
  function Resolve(nin: Option<int>, vector: Option<Value>, styles: Option<Value>, labels: Option<Value>,
                   counting: Counting): (r: Outcome<ScopeConfig>)
    ensures r.Raise? ==> r.exc in {ValueError(ListifyMessage), AssertionError(StyleMessage), AssertionError(LabelMessage),
                                   ValueError(VectorNinMessage), ValueError(VectorTypeMessage), ValueError(VectorMatchMessage)}
    ensures r.Ok? ==> r.value.lines == Slots(r.value.nplots)
    ensures r.Ok? && vector.Some? ==> r.value.nin == 1 && Some(r.value.nplots) == VectorWidth(vector.value)
    ensures r.Ok? && vector.None? ==> r.value.nin == r.value.nplots
  {
    if styles.Some? && !Listable(styles.value) then Raise(ValueError(ListifyMessage))
    else if styles.Some? && nin.Some? && nin.value != Count(styles.value, counting) then
      Raise(AssertionError(StyleMessage))
    else
      var afterStyles :=
        if nin.Some? then nin
        else if styles.Some? then Some(Count(styles.value, counting) as int)
        else None;
      if labels.Some? && !Listable(labels.value) then Raise(ValueError(ListifyMessage))
      else if labels.Some? && afterStyles.Some? && afterStyles.value != Count(labels.value, counting) then
        Raise(AssertionError(LabelMessage))
      else
        var afterLabels :=
          if afterStyles.Some? then afterStyles
          else if labels.Some? then Some(Count(labels.value, counting) as int)
          else None;
        if vector.None? then
          var n := if afterLabels.Some? then afterLabels.value else 1;
          Ok(Finish(n, n, styles, labels))
        else if nin.Some? && nin.value != 1 then Raise(ValueError(VectorNinMessage))
        else if VectorWidth(vector.value).None? then Raise(ValueError(VectorTypeMessage))
        else if afterLabels.Some? && afterLabels.value != VectorWidth(vector.value).value then
          Raise(ValueError(VectorMatchMessage))
        else Ok(Finish(1, VectorWidth(vector.value).value, styles, labels))
  }

  /** Every argument given has a form the Scope accepts. */
  predicate WellTyped(vector: Option<Value>, styles: Option<Value>, labels: Option<Value>) {
    && (styles.Some? ==> Listable(styles.value))
    && (labels.Some? ==> Listable(labels.value))
    && (vector.Some? ==> VectorWidth(vector.value).Some?)
  }

  /** `s` with the count `o` appended when there is one. */
  function Push(s: seq<int>, o: Option<int>): seq<int> {
    if o.Some? then s + [o.value] else s
  }

  /** The count a listable argument stands for, if it is given. */
  function CountOf(v: Option<Value>, counting: Counting): Option<int>
    requires v.Some? ==> Listable(v.value)
  {
    if v.Some? then Some(Count(v.value, counting) as int) else None
  }

  /** The line counts the given arguments stand for, in the order nin, styles, labels, vector. */
  function Given(nin: Option<int>, vector: Option<Value>, styles: Option<Value>, labels: Option<Value>,
                 counting: Counting): seq<int>
    requires WellTyped(vector, styles, labels)
  {
    var vec := if vector.Some? then VectorWidth(vector.value) else None;
    Push(Push(Push(Push([], nin), CountOf(styles, counting)), CountOf(labels, counting)), vec)
  }

  predicate AllEqual(s: seq<int>) {
    forall i, j :: 0 <= i < |s| && 0 <= j < |s| ==> s[i] == s[j]
  }

  /** Appending a count keeps the counts equal exactly when it equals the first one. */
  lemma AllEqualPush(s: seq<int>, o: Option<int>)
    ensures AllEqual(Push(s, o)) <==> AllEqual(s) && (o.Some? && |s| > 0 ==> o.value == s[0])
  {
    if o.Some? && AllEqual(s) && (|s| > 0 ==> o.value == s[0]) {
      var t := Push(s, o);
      forall i, j | 0 <= i < |t| && 0 <= j < |t| ensures t[i] == t[j] {
        assert i < |s| ==> t[i] == s[0];
        assert j < |s| ==> t[j] == s[0];
      }
    }
    if o.Some? && AllEqual(Push(s, o)) {
      var t := Push(s, o);
      assert forall i :: 0 <= i < |s| ==> s[i] == t[i];
      if |s| > 0 {
        assert t[|s|] == o.value;
      }
    }
  }

  /** The arguments agree: each is well formed, all counts are equal, and a vector comes with nin 1 or none. */
  predicate Consistent(nin: Option<int>, vector: Option<Value>, styles: Option<Value>, labels: Option<Value>,
                       counting: Counting) {
    && WellTyped(vector, styles, labels)
    && (vector.Some? && nin.Some? ==> nin.value == 1)
    && AllEqual(Given(nin, vector, styles, labels, counting))
  }

  /** The Scope accepts its arguments exactly when they agree with one another. */
  lemma ResolveSucceedsIffConsistent(nin: Option<int>, vector: Option<Value>, styles: Option<Value>,
                                     labels: Option<Value>, counting: Counting)
    ensures Resolve(nin, vector, styles, labels, counting).Ok? <==> Consistent(nin, vector, styles, labels, counting)
  {
    if WellTyped(vector, styles, labels) {
      var s0 := Push([], nin);
      var s1 := Push(s0, CountOf(styles, counting));
      var s2 := Push(s1, CountOf(labels, counting));
      var vec := if vector.Some? then VectorWidth(vector.value) else None;
      AllEqualPush([], nin);
      AllEqualPush(s0, CountOf(styles, counting));
      AllEqualPush(s1, CountOf(labels, counting));
      AllEqualPush(s2, vec);
      assert Given(nin, vector, styles, labels, counting) == Push(s2, vec);
    }
  }

  /**
   * On success, every count given equals the resolved line count (one when
   * none is given); a vector scope has one input, any other one input per
   * line; the styles and line slots are one per line unless styles were
   * given, and with no labels none are kept.
   */
  lemma ResolveAgreesWithArguments(nin: Option<int>, vector: Option<Value>, styles: Option<Value>,
                                   labels: Option<Value>, counting: Counting)
    requires Resolve(nin, vector, styles, labels, counting).Ok?
    ensures WellTyped(vector, styles, labels)
    ensures var c := Resolve(nin, vector, styles, labels, counting).value;
      var g := Given(nin, vector, styles, labels, counting);
      && (forall i :: 0 <= i < |g| ==> g[i] == c.nplots)
      && (g == [] ==> c.nplots == 1)
      && c.nin == (if vector.Some? then 1 else c.nplots)
      && c.lines == Slots(c.nplots)
      && (styles.None? ==> |c.styles| == c.lines && forall i :: 0 <= i < |c.styles| ==> c.styles[i].None?)
      && (styles.Some? ==> c.styles == Entries(Listify(styles.value).value))
      && (labels.None? <==> c.labels.None?)
      && (labels.Some? ==> c.labels == Some(Listify(labels.value).value))
  {
    ResolveSucceedsIffConsistent(nin, vector, styles, labels, counting);
  }

  /**
   * A styles or labels count that disagrees with the line count already known
   * fails the assertion; without a vector, that is the only way well-formed
   * arguments can fail.
   */
  lemma ResolveAssertionErrors(nin: Option<int>, vector: Option<Value>, styles: Option<Value>,
                               labels: Option<Value>, counting: Counting)
    requires styles.Some? ==> Listable(styles.value)
    ensures styles.Some? && nin.Some? && nin.value != Count(styles.value, counting) ==>
      Resolve(nin, vector, styles, labels, counting) == Raise(AssertionError(StyleMessage))
    ensures var known := Push(Push([], nin), CountOf(styles, counting));
      (labels.Some? && Listable(labels.value) && AllEqual(known) && |known| > 0
        && known[0] != Count(labels.value, counting)) ==>
      Resolve(nin, vector, styles, labels, counting) == Raise(AssertionError(LabelMessage))
    ensures vector.None? && WellTyped(vector, styles, labels) && Resolve(nin, vector, styles, labels, counting).Raise? ==>
      Resolve(nin, vector, styles, labels, counting).exc in {AssertionError(StyleMessage), AssertionError(LabelMessage)}
  {
    var s0 := Push([], nin);
    AllEqualPush([], nin);
    AllEqualPush(s0, CountOf(styles, counting));
  }

  /**
   * An argument listify refuses raises listify's ValueError: `styles` first,
   * then `labels` once the styles check has passed; and that ValueError comes
   * from nowhere else.
   */
  lemma ResolveListifyErrors(nin: Option<int>, vector: Option<Value>, styles: Option<Value>,
                             labels: Option<Value>, counting: Counting)
    ensures styles.Some? && !Listable(styles.value) ==>
      Resolve(nin, vector, styles, labels, counting) == Raise(ValueError(ListifyMessage))
    ensures ((styles.None? || (Listable(styles.value) && (nin.None? || nin.value == Count(styles.value, counting))))
             && labels.Some? && !Listable(labels.value)) ==>
      Resolve(nin, vector, styles, labels, counting) == Raise(ValueError(ListifyMessage))
    ensures Resolve(nin, vector, styles, labels, counting) == Raise(ValueError(ListifyMessage)) ==>
      (styles.Some? && !Listable(styles.value)) || (labels.Some? && !Listable(labels.value))
  {
  }

  /**
   * Once styles and labels have passed, a vector argument can only fail with a
   * ValueError: `nin` other than 1, a vector that is neither an int nor a
   * list, or a width that differs from the line count already known, checked
   * in that order.
   */
  lemma ResolveVectorErrors(nin: Option<int>, vector: Option<Value>, styles: Option<Value>,
                            labels: Option<Value>, counting: Counting)
    requires vector.Some?
    requires styles.Some? ==> Listable(styles.value)
    requires labels.Some? ==> Listable(labels.value)
    requires AllEqual(Push(Push(Push([], nin), CountOf(styles, counting)), CountOf(labels, counting)))
    ensures var r := Resolve(nin, vector, styles, labels, counting);
      && (nin.Some? && nin.value != 1 ==> r == Raise(ValueError(VectorNinMessage)))
      && ((nin.None? || nin.value == 1) && VectorWidth(vector.value).None? ==>
            r == Raise(ValueError(VectorTypeMessage)))
      && (r.Raise? ==> r.exc in {ValueError(VectorNinMessage), ValueError(VectorTypeMessage), ValueError(VectorMatchMessage)})
    ensures var known := Push(Push(Push([], nin), CountOf(styles, counting)), CountOf(labels, counting));
      ((nin.None? || nin.value == 1) && VectorWidth(vector.value).Some? && |known| > 0
        && known[0] != VectorWidth(vector.value).value) ==>
      Resolve(nin, vector, styles, labels, counting) == Raise(ValueError(VectorMatchMessage))
  {
    var s0 := Push([], nin);
    var s1 := Push(s0, CountOf(styles, counting));
    AllEqualPush([], nin);
    AllEqualPush(s0, CountOf(styles, counting));
    AllEqualPush(s1, CountOf(labels, counting));
  }

  /**
   * Scope.__init__'s resolution as the code does it, updating the local line
   * count step by step; `len` is taken of the styles and labels as given.
   */
  method Init(nin: Option<int>, vector: Option<Value>, styles: Option<Value>, labels: Option<Value>)
    returns (r: Outcome<ScopeConfig>)
    ensures r == Resolve(nin, vector, styles, labels, RawLen)
    ensures r.Ok? <==> Consistent(nin, vector, styles, labels, RawLen)
  {
    ResolveSucceedsIffConsistent(nin, vector, styles, labels, RawLen);
    var nplots: Option<int> := None;
    if nin.Some? {
      nplots := nin;
    }

    if styles.Some? {
      var listed := Listify(styles.value);
      if listed.Raise? {
        return Raise(listed.exc);
      }
      if nplots.Some? {
        if nplots.value != PyLen(styles.value) {
          return Raise(AssertionError(StyleMessage));
        }
      } else {
        nplots := Some(PyLen(styles.value));
      }
    }

    if labels.Some? {
      var listed := Listify(labels.value);
      if listed.Raise? {
        return Raise(listed.exc);
      }
      if nplots.Some? {
        if nplots.value != PyLen(labels.value) {
          return Raise(AssertionError(LabelMessage));
        }
      } else {
        nplots := Some(PyLen(labels.value));
      }
    }

    var nvec := 0;
    if vector.Some? {
      if nin.Some? && nin.value != 1 {
        return Raise(ValueError(VectorNinMessage));
      }
      match vector.value {
        case Int(i) => nvec := i;
        case Bool(b) => nvec := if b then 1 else 0;
        case List(elems) => nvec := |elems|;
        case _ => return Raise(ValueError(VectorTypeMessage));
      }
      if nplots.None? {
        nplots := Some(nvec);
      } else if nvec != nplots.value {
        return Raise(ValueError(VectorMatchMessage));
      }
    }

    var n: int;
    var lines: int;
    if nplots.None? {
      n, lines := 1, 1;
    } else {
      lines := nplots.value;
    }
    if vector.Some? {
      n, lines := 1, nvec;
    } else {
      n := lines;
    }
    r := Ok(Finish(n, lines, styles, labels));
  }

  // ---------------------------------------------------------------------------
  // Scope.start: the style looked up for each line

  /** The style of each of the `lines` lines, or an IndexError when the styles run out first. */
  function LineStyles(c: ScopeConfig): (r: Outcome<seq<Option<Value>>>)
    ensures r.Ok? <==> |c.styles| >= c.lines
    ensures r.Ok? ==> |r.value| == c.lines && forall i :: 0 <= i < c.lines ==> r.value[i] == c.styles[i]
  {
    if |c.styles| < c.lines then Raise(IndexError("list index out of range"))
    else Ok(c.styles[..c.lines])
  }

  /**
   * As written, a single style string counts its characters: `styles='k--'`
   * makes three lines from one style, so starting the scope runs out of
   * styles, and adding `nin=1` fails the assertion.  Counting listify's
   * entries gives the one line intended.
   */
  lemma StyleStringMiscount()
    ensures var r := Resolve(None, None, Some(Str("k--")), None, RawLen);
      r.Ok? && r.value.nplots == 3 && |r.value.styles| == 1 && LineStyles(r.value).Raise?
    ensures Resolve(Some(1), None, Some(Str("k--")), None, RawLen) == Raise(AssertionError(StyleMessage))
    ensures var r := Resolve(None, None, Some(Str("k--")), None, EntryCount);
      r.Ok? && r.value.nplots == 1 && LineStyles(r.value).Ok?
  {
  }

  /**
   * Counting listify's entries, an accepted configuration has exactly one
   * style (given or None) per line and one label per line when labels are
   * given, so starting the scope never runs out of styles.
   */
  lemma EntryCountOneStylePerLine(nin: Option<int>, vector: Option<Value>, styles: Option<Value>,
                                  labels: Option<Value>)
    requires Resolve(nin, vector, styles, labels, EntryCount).Ok?
    ensures var c := Resolve(nin, vector, styles, labels, EntryCount).value;
      && |c.styles| == c.lines
      && (c.labels.Some? ==> |c.labels.value| == c.lines)
      && LineStyles(c).Ok?
  {
    ResolveAgreesWithArguments(nin, vector, styles, labels, EntryCount);
    var c := Resolve(nin, vector, styles, labels, EntryCount).value;
    var g := Given(nin, vector, styles, labels, EntryCount);
    var ns := if nin.Some? then [nin.value] else [];
    if styles.Some? {
      assert g[|ns|] == Count(styles.value, EntryCount) as int;
    }
    if labels.Some? {
      var ss := if styles.Some? then [Count(styles.value, EntryCount) as int] else [];
      assert g[|ns| + |ss|] == Count(labels.value, EntryCount) as int;
    }
  }

  /** When no argument is a string, the two countings resolve alike. */
  lemma CountingsAgreeWithoutStrings(nin: Option<int>, vector: Option<Value>, styles: Option<Value>,
                                     labels: Option<Value>)
    requires styles.Some? ==> !styles.value.Str?
    requires labels.Some? ==> !labels.value.Str?
    ensures Resolve(nin, vector, styles, labels, RawLen) == Resolve(nin, vector, styles, labels, EntryCount)
  {
  }

  // ---------------------------------------------------------------------------
  // Scope.start: legend labels

  /** A leading underscore becomes a dash; an empty label has no first character to test. */
  function FixUnderscore(s: string): (r: Outcome<string>)
    ensures r.Ok? <==> |s| > 0
    ensures r.Raise? ==> r.exc.IndexError?
    ensures r.Ok? ==> |r.value| == |s| && r.value[1..] == s[1..] && r.value[0] != '_'
    ensures r.Ok? && s[0] != '_' ==> r.value == s
    ensures r.Ok? && s[0] == '_' ==> r.value == "-" + s[1..]
  {
    if |s| == 0 then Raise(IndexError(IndexMessage))
    else if s[0] == '_' then Ok("-" + s[1..])
    else Ok(s)
  }

  /** Fixing a label twice is the same as fixing it once. */
  lemma FixUnderscoreIdempotent(s: string)
    requires |s| > 0
    ensures FixUnderscore(FixUnderscore(s).value) == FixUnderscore(s)
  {
  }

  /** The legend entries: every label fixed, or the error of the first empty label. */
  function Legend(labels: seq<string>): (r: Outcome<seq<string>>)
    ensures r.Ok? <==> forall i :: 0 <= i < |labels| ==> |labels[i]| > 0
    ensures r.Ok? ==> |r.value| == |labels| && forall i :: 0 <= i < |labels| ==> FixUnderscore(labels[i]) == Ok(r.value[i])
    ensures r.Raise? ==> r.exc.IndexError?
  {
    if labels == [] then Ok([])
    else
      var head := FixUnderscore(labels[0]);
      if head.Raise? then Raise(head.exc)
      else
        var tail := Legend(labels[1..]);
        if tail.Raise? then tail
        else
          assert forall i :: 1 <= i < |labels| ==> labels[i] == labels[1..][i - 1];
          Ok([head.value] + tail.value)
  }

  // ---------------------------------------------------------------------------
  // Scope.step and ScopeXY1

  /**
   * Without a vector, a step of an enabled scope must bring exactly one signal
   * per line; a disabled scope returns before looking at its inputs.
   */
  function CheckStep(enabled: bool, vector: Option<Value>, nInports: nat, nplots: int): (r: Check)
    ensures r.Fail? <==> enabled && vector.None? && nInports != nplots
    ensures r.Fail? ==> r.exc == RuntimeError(StepMessage)
  {
    if !enabled then Pass
    else if vector.None? && nInports != nplots then Fail(RuntimeError(StepMessage))
    else Pass
  }

  /**
   * A scope without a vector that is fed one signal per declared input never
   * fails its step check: resolution makes the input count the line count.
   */
  lemma StepAcceptsResolvedInputs(nin: Option<int>, styles: Option<Value>, labels: Option<Value>,
                                  counting: Counting)
    requires Resolve(nin, None, styles, labels, counting).Ok?
    requires Resolve(nin, None, styles, labels, counting).value.nin >= 0
    ensures var c := Resolve(nin, None, styles, labels, counting).value;
      forall enabled :: CheckStep(enabled, None, c.nin, c.nplots) == Pass
  {
    ResolveAgreesWithArguments(nin, None, styles, labels, counting);
  }

  /** Python's int() of a number: truncation toward zero. */
  function Truncate(v: real): (t: int)
    ensures v >= 0.0 ==> t as real <= v < t as real + 1.0
    ensures v < 0.0 ==> t as real - 1.0 < v <= t as real
  {
    if v >= 0.0 then v.Floor else -((-v).Floor)
  }

  /**
   * As written, a single dict of line options, which the documentation lists
   * as a style, is refused by listify; inside a list it is one line's style.
   * Read as documented, the bare dict is one line too.
   */
  lemma DictStyleRefused(options: nat)
    ensures Resolve(None, None, Some(Dict(options)), None, RawLen) == Raise(ValueError(ListifyMessage))
    ensures var r := Resolve(None, None, Some(List([Dict(options)])), None, RawLen);
      r.Ok? && r.value.nplots == 1 && r.value.styles == [Some(Dict(options))]
    ensures ListifyStyles(Dict(options)) == Ok([Dict(options)])
  {
  }

  /** ScopeXY1's indices: exactly two, each converted to an int. */
  function XY1Indices(indices: seq<real>): (r: Outcome<seq<int>>)
    ensures r.Ok? <==> |indices| == 2
    ensures r.Raise? ==> r.exc == ValueError(IndicesMessage)
    ensures r.Ok? ==> |r.value| == 2 && forall i :: 0 <= i < 2 ==> r.value[i] == Truncate(indices[i])
  {
    if |indices| != 2 then Raise(ValueError(IndicesMessage))
    else Ok([Truncate(indices[0]), Truncate(indices[1])])
  }
}
