/** The JSON values a Lambda handler receives as its event, with Python's
    truthiness and Python's subscripting (`x["key"]`, `x[0]`) and the
    exceptions subscripting raises. */
module Json {
  import opened Wrappers

  /** A decoded JSON document. Numbers are integers here; floating point is
      not needed by the handler. */
  datatype Json =
    | JNull
    | JBool(b: bool)
    | JNum(n: int)
    | JStr(s: string)
    | JArr(items: seq<Json>)
    | JObj(fields: map<string, Json>)

  /** One subscript: `x["key"]` or `x[i]`. */
  datatype Step = Key(key: string) | Pos(pos: nat)

  /** The exceptions Python raises from a subscript. */
  datatype AccessError = KeyError(missing: Step) | IndexError | TypeError

  /** Python's `bool(x)`: None, False, 0, "" and empty containers are false. */
  predicate Truthy(j: Json) {
    match j
    case JNull => false
    case JBool(b) => b
    case JNum(n) => n != 0
    case JStr(s) => s != ""
    case JArr(a) => a != []
    case JObj(m) => m != map[]
  }

  /** Python's `j[step]`: a dict answers string keys (an integer key is simply
      missing), a list and a string answer in-range positions, everything
      else raises TypeError. */
  function At(j: Json, step: Step): (r: Result<Json, AccessError>)
    ensures step.Key? ==> (r.Success? <==> j.JObj? && step.key in j.fields)
    ensures step.Key? && r.Success? ==> r.value == j.fields[step.key]
    ensures j.JArr? && step.Pos? ==> (r.Success? <==> step.pos < |j.items|)
    ensures j.JArr? && r.Success? ==> r.value == j.items[step.pos]
    ensures r.Failure? && j.JObj? ==> r.error == KeyError(step)
  {
    match (j, step)
    case (JObj(m), Key(k)) => if k in m then Success(m[k]) else Failure(KeyError(step))
    case (JObj(_), Pos(_)) => Failure(KeyError(step))
    case (JArr(a), Pos(i)) => if i < |a| then Success(a[i]) else Failure(IndexError)
    case (JStr(s), Pos(i)) => if i < |s| then Success(JStr([s[i]])) else Failure(IndexError)
    case _ => Failure(TypeError)
  }

  /** A chain of subscripts `j[s0][s1]...`, stopping at the first exception. */
  function Path(j: Json, steps: seq<Step>): (r: Result<Json, AccessError>)
    ensures |steps| == 1 ==> r == At(j, steps[0])
    ensures steps != [] && At(j, steps[0]).Failure? ==> r == Failure(At(j, steps[0]).error)
    decreases |steps|
  {
    if steps == [] then Success(j)
    else
      match At(j, steps[0])
      case Failure(e) => Failure(e)
      case Success(v) => Path(v, steps[1..])
  }

  /** Subscripting with `a + b` is subscripting with `a`, then with `b`
      from where `a` led: `j[a0][a1][b0]` is `(j[a0][a1])[b0]`. */
  lemma {:induction false} PathAppend(j: Json, a: seq<Step>, b: seq<Step>)
    ensures Path(j, a + b) == match Path(j, a)
                              case Failure(e) => Failure(e)
                              case Success(v) => Path(v, b)
    decreases |a|
  {
    if a == [] {
      assert a + b == b;
    } else {
      assert (a + b)[0] == a[0];
      assert (a + b)[1..] == a[1..] + b;
      match At(j, a[0])
      case Failure(_) =>
      case Success(v) => PathAppend(v, a[1..], b);
    }
  }

  /** The smallest document in which `steps` lead to `leaf`: a one-key dict
      per key and, per position `i`, a list of `i` nulls followed by the
      inner value. */
  function Nest(steps: seq<Step>, leaf: Json): Json
    decreases |steps|
  {
    if steps == [] then leaf
    else
      var inner := Nest(steps[1..], leaf);
      match steps[0]
      case Key(k) => JObj(map[k := inner])
      case Pos(i) => JArr(seq(i, _ => JNull) + [inner])
  }

  /** Following `steps` through the document built from them gives back the leaf. */
  lemma {:induction false} PathOfNest(steps: seq<Step>, leaf: Json)
    ensures Path(Nest(steps, leaf), steps) == Success(leaf)
    decreases |steps|
  {
    if steps != [] {
      var inner := Nest(steps[1..], leaf);
      PathOfNest(steps[1..], leaf);
      match steps[0]
      case Key(k) =>
        assert At(Nest(steps, leaf), steps[0]) == Success(inner);
      case Pos(i) =>
        var a := seq(i, _ => JNull) + [inner];
        assert a[i] == inner;
        assert At(Nest(steps, leaf), steps[0]) == Success(inner);
    }
  }
}
