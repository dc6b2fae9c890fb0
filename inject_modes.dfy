/** The injection policy that decides how the external treatment effect enters
    BPDModel2's update. The source keeps it as a free string; the five names it
    recognises get their own cases and every other string is `Other`. */
module InjectModes {

  datatype Option<T> = None | Some(value: T)

  datatype InjectMode =
    | AddToLambda
    | AddToG
    | AddToP
    | AddToEB
    | TiltToPN
    | Other(name: string)

  /** The string the source stores for a mode. */
  function Name(m: InjectMode): string
  {
    match m
    case AddToLambda => "add_to_lambda"
    case AddToG => "add_to_g"
    case AddToP => "add_to_P"
    case AddToEB => "add_to_EB"
    case TiltToPN => "tilt_to_PN"
    case Other(s) => s
  }

  /** The five recognised modes, in the order the 'm' key cycles through them. */
  const Modes: seq<InjectMode> := [AddToLambda, AddToG, AddToP, AddToEB, TiltToPN]

  /** An `Other` mode stands for a string that is none of the recognised names. */
  predicate Canonical(m: InjectMode)
  {
    m.Other? ==> forall k :: 0 <= k < |Modes| ==> m.name != Name(Modes[k])
  }

  /** Reading a stored string as a mode. */
  function FromName(s: string): (m: InjectMode)
    ensures Name(m) == s
    ensures Canonical(m)
    ensures m in Modes <==> exists k :: 0 <= k < |Modes| && Name(Modes[k]) == s
  {
    if s == "add_to_lambda" then AddToLambda
    else if s == "add_to_g" then AddToG
    else if s == "add_to_P" then AddToP
    else if s == "add_to_EB" then AddToEB
    else if s == "tilt_to_PN" then TiltToPN
    else Other(s)
  }

  /** Every canonical mode survives the trip through its string. */
  lemma NameRoundTrip(m: InjectMode)
    requires Canonical(m)
    ensures FromName(Name(m)) == m
  {
    if m.Other? {
      assert forall k :: 0 <= k < |Modes| ==> m.name != Name(Modes[k]);
      assert m.name != Name(Modes[0]) && m.name != Name(Modes[1]) && m.name != Name(Modes[2]);
      assert m.name != Name(Modes[3]) && m.name != Name(Modes[4]);
    }
  }

  /** Python's list.index: the position of m in Modes, None where it raises. */
  function IndexOf(m: InjectMode): (k: Option<nat>)
    ensures k.Some? <==> m in Modes
    ensures k.Some? ==> k.value < |Modes| && Modes[k.value] == m
  {
    match m
    case AddToLambda => Some(0)
    case AddToG => Some(1)
    case AddToP => Some(2)
    case AddToEB => Some(3)
    case TiltToPN => Some(4)
    case Other(_) => None
  }

  /** The mode the 'm' key selects: the next one in Modes, wrapping around; None
      for an unrecognised mode, on which the source raises ValueError. */
  function NextMode(m: InjectMode): (r: Option<InjectMode>)
    ensures r.Some? <==> m in Modes
    ensures r.Some? ==> r.value in Modes && r.value != m
  {
    match IndexOf(m)
    case None => None
    case Some(k) => Some(Modes[(k + 1) % |Modes|])
  }

  /** n presses of 'm' in a row, failing as soon as one fails. */
  function NextModeTimes(n: nat, m: InjectMode): Option<InjectMode>
  {
    if n == 0 then Some(m)
    else match NextMode(m)
      case None => None
      case Some(m') => NextModeTimes(n - 1, m')
  }

  /** The cycle the 'm' key walks through. */
  lemma NextModeCycle()
    ensures NextMode(AddToLambda) == Some(AddToG)
    ensures NextMode(AddToG) == Some(AddToP)
    ensures NextMode(AddToP) == Some(AddToEB)
    ensures NextMode(AddToEB) == Some(TiltToPN)
    ensures NextMode(TiltToPN) == Some(AddToLambda)
  {
  }

  /** Five presses of 'm' bring every recognised mode back. */
  lemma {:induction false} FivePressesRestoreMode(m: InjectMode)
    requires m in Modes
    ensures NextModeTimes(|Modes|, m) == Some(m)
  {
    NextModeCycle();
    var m1 := NextMode(m).value;
    var m2 := NextMode(m1).value;
    var m3 := NextMode(m2).value;
    var m4 := NextMode(m3).value;
    assert NextMode(m4) == Some(m);
    assert NextModeTimes(1, m4) == Some(m);
    assert NextModeTimes(2, m3) == Some(m);
    assert NextModeTimes(3, m2) == Some(m);
    assert NextModeTimes(4, m1) == Some(m);
  }

  /** On an unrecognised mode every number of presses past zero fails. */
  lemma UnknownModeNeverCycles(m: InjectMode, n: nat)
    requires m !in Modes && n > 0
    ensures NextModeTimes(n, m) == None
  {
  }
}
