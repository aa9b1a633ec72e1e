/** The backend endpoints the client consumes, as Express-style routes: a
    request reaches an endpoint when the verbs agree and the request path is
    the endpoint's pattern with its `:param` bound to a non-empty text free
    of slashes. This is the reference the API modules' requests are checked
    against. */
module Routes {
  import opened Js
  import opened Http

  /** `s.split("/")`. */
  function Split(s: string): (parts: seq<string>)
    ensures |parts| >= 1
  {
    if s == [] then [""]
    else
      var rest := Split(s[1..]);
      if s[0] == '/' then [""] + rest else [[s[0]] + rest[0]] + rest[1..]
  }

  predicate NoSlash(s: string) {
    '/' !in s
  }

  lemma {:induction false} SplitNoSlash(s: string)
    requires NoSlash(s)
    ensures Split(s) == [s]
  {
    if s != [] {
      SplitNoSlash(s[1..]);
      assert [s[0]] + s[1..] == s;
    }
  }

  lemma {:induction false} SplitAtSlash(a: string, b: string)
    requires NoSlash(a)
    ensures Split(a + "/" + b) == [a] + Split(b)
  {
    if a == [] {
      assert a + "/" + b == "/" + b;
      assert ("/" + b)[1..] == b;
    } else {
      var s := a + "/" + b;
      assert s[1..] == a[1..] + "/" + b;
      SplitAtSlash(a[1..], b);
      assert [a[0]] + a[1..] == a;
    }
  }

  /** Text without a slash: what a fixed pattern segment may hold. */
  type Word = s: string | NoSlash(s)

  /** One segment of a route pattern: fixed text, or a `:param`. */
  datatype Seg = Lit(text: Word) | Param

  datatype Endpoint =
    | AuthLogin | AuthRegister | AuthMe | AuthLogout | AuthProfile
    | AppointmentCreate | AppointmentsOfPatient | AppointmentDelete | AppointmentForDoctor
    | BookingsAll | BookingsOfProvider | BookingCreate | BookingDate | BookingTime | BookingStatus | BookingDelete
    | DependentsAll | DependentCreate | DependentUpdate | DependentDelete
    | ProvidersAll | DoctorById | DoctorsBySpecialization

  function VerbOf(e: Endpoint): Verb {
    match e
    case AuthLogin => POST
    case AuthRegister => POST
    case AuthMe => GET
    case AuthLogout => POST
    case AuthProfile => PUT
    case AppointmentCreate => POST
    case AppointmentsOfPatient => GET
    case AppointmentDelete => DELETE
    case AppointmentForDoctor => POST
    case BookingsAll => GET
    case BookingsOfProvider => GET
    case BookingCreate => POST
    case BookingDate => PUT
    case BookingTime => PUT
    case BookingStatus => PUT
    case BookingDelete => DELETE
    case DependentsAll => GET
    case DependentCreate => POST
    case DependentUpdate => PUT
    case DependentDelete => DELETE
    case ProvidersAll => GET
    case DoctorById => GET
    case DoctorsBySpecialization => GET
  }

  /** The path pattern, split at its slashes (the leading slash gives the
      empty first segment). */
  function PatternOf(e: Endpoint): (pattern: seq<Seg>)
    ensures pattern != []
  {
    match e
    case AuthLogin => [Lit(""), Lit("auth"), Lit("login")]
    case AuthRegister => [Lit(""), Lit("auth"), Lit("register")]
    case AuthMe => [Lit(""), Lit("auth"), Lit("me")]
    case AuthLogout => [Lit(""), Lit("auth"), Lit("logout")]
    case AuthProfile => [Lit(""), Lit("auth"), Lit("profile")]
    case AppointmentCreate => [Lit(""), Lit("appointments"), Lit("create"), Param]
    case AppointmentsOfPatient => [Lit(""), Lit("appointments"), Lit("patient")]
    case AppointmentDelete => [Lit(""), Lit("appointments"), Param]
    case AppointmentForDoctor => [Lit(""), Lit("appointments"), Param]
    case BookingsAll => [Lit(""), Lit("bookings")]
    case BookingsOfProvider => [Lit(""), Lit("bookings"), Lit("provider")]
    case BookingCreate => [Lit(""), Lit("bookings"), Param]
    case BookingDate => [Lit(""), Lit("bookings"), Param, Lit("date")]
    case BookingTime => [Lit(""), Lit("bookings"), Param, Lit("time")]
    case BookingStatus => [Lit(""), Lit("bookings"), Param, Lit("status")]
    case BookingDelete => [Lit(""), Lit("bookings"), Param]
    case DependentsAll => [Lit(""), Lit("dependents")]
    case DependentCreate => [Lit(""), Lit("dependents")]
    case DependentUpdate => [Lit(""), Lit("dependents"), Param]
    case DependentDelete => [Lit(""), Lit("dependents"), Param]
    case ProvidersAll => [Lit(""), Lit("api"), Lit("providers"), Lit("")]
    case DoctorById => [Lit(""), Lit("doctors"), Param]
    case DoctorsBySpecialization => [Lit(""), Lit("doctors"), Lit("specialization"), Param]
  }

  /** Where the endpoint's single `:param`, if any, sits. */
  function ParamIndex(e: Endpoint): (k: Option<nat>)
    ensures k.Some? ==> k.value < |PatternOf(e)| && PatternOf(e)[k.value] == Param
  {
    match e
    case AppointmentCreate => Some(3)
    case AppointmentDelete => Some(2)
    case AppointmentForDoctor => Some(2)
    case BookingCreate => Some(2)
    case BookingDate => Some(2)
    case BookingTime => Some(2)
    case BookingStatus => Some(2)
    case BookingDelete => Some(2)
    case DependentUpdate => Some(2)
    case DependentDelete => Some(2)
    case DoctorById => Some(2)
    case DoctorsBySpecialization => Some(3)
    case _ => None
  }

  function SegText(seg: Seg, param: string): string {
    if seg.Lit? then seg.text else param
  }

  /** The path a pattern stands for once its `:param` is bound to `param`. */
  function Render(pattern: seq<Seg>, param: string): string {
    if pattern == [] then ""
    else if |pattern| == 1 then SegText(pattern[0], param)
    else SegText(pattern[0], param) + "/" + Render(pattern[1..], param)
  }

  /** What a `:param` segment accepts: one or more characters, no slash. */
  predicate ParamText(s: string) {
    s != "" && NoSlash(s)
  }

  /** The request is handled by endpoint `e`, which receives `param`. */
  predicate Reaches(request: Request, e: Endpoint, param: Option<string>) {
    && request.verb == VerbOf(e)
    && (param.Some? <==> ParamIndex(e).Some?)
    && (param.Some? ==> ParamText(param.value))
    && request.path == Render(PatternOf(e), if param.Some? then param.value else "")
  }

  /** The pattern's segments once `:param` is bound to `param`. */
  function Segments(pattern: seq<Seg>, param: string): (parts: seq<string>)
    ensures |parts| == |pattern|
    ensures forall i | 0 <= i < |pattern| :: parts[i] == SegText(pattern[i], param)
  {
    seq(|pattern|, i requires 0 <= i < |pattern| => SegText(pattern[i], param))
  }

  /** Splitting a rendered path gives back its segments. */
  lemma {:induction false} SplitRender(pattern: seq<Seg>, param: string)
    requires pattern != [] && NoSlash(param)
    ensures Split(Render(pattern, param)) == Segments(pattern, param)
  {
    var head := SegText(pattern[0], param);
    assert NoSlash(head);
    if |pattern| == 1 {
      SplitNoSlash(head);
      assert Segments(pattern, param) == [head];
    } else {
      var rest := pattern[1..];
      assert Render(pattern, param) == head + "/" + Render(rest, param);
      SplitAtSlash(head, Render(rest, param));
      SplitRender(rest, param);
      SegmentsCons(pattern, param);
    }
  }

  lemma SegmentsCons(pattern: seq<Seg>, param: string)
    requires |pattern| >= 2
    ensures Segments(pattern, param) == [SegText(pattern[0], param)] + Segments(pattern[1..], param)
  {
  }

  /** `Render` of a pattern with at least two segments. */
  lemma RenderCons(head: Seg, rest: seq<Seg>, param: string)
    requires rest != []
    ensures Render([head] + rest, param) == SegText(head, param) + "/" + Render(rest, param)
  {
    assert ([head] + rest)[1..] == rest;
  }

  /** The three shapes of pattern with a `:param`, rendered. */
  lemma RenderParamLast(a: Word, param: string)
    ensures Render([Lit(""), Lit(a), Param], param) == "/" + a + "/" + param
  {
    RenderCons(Lit(a), [Param], param);
    RenderCons(Lit(""), [Lit(a), Param], param);
    assert [Lit(a)] + [Param] == [Lit(a), Param];
    assert [Lit("")] + [Lit(a), Param] == [Lit(""), Lit(a), Param];
    assert "" + "/" + (a + "/" + param) == "/" + a + "/" + param;
  }

  lemma RenderParamAfterTwo(a: Word, b: Word, param: string)
    ensures Render([Lit(""), Lit(a), Lit(b), Param], param) == "/" + a + "/" + b + "/" + param
  {
    RenderCons(Lit(b), [Param], param);
    RenderCons(Lit(a), [Lit(b), Param], param);
    RenderCons(Lit(""), [Lit(a), Lit(b), Param], param);
    assert [Lit(b)] + [Param] == [Lit(b), Param];
    assert [Lit(a)] + [Lit(b), Param] == [Lit(a), Lit(b), Param];
    assert [Lit("")] + [Lit(a), Lit(b), Param] == [Lit(""), Lit(a), Lit(b), Param];
    assert "" + "/" + (a + "/" + (b + "/" + param)) == "/" + a + "/" + b + "/" + param;
  }

  lemma RenderParamBetween(a: Word, param: string, c: Word)
    ensures Render([Lit(""), Lit(a), Param, Lit(c)], param) == "/" + a + "/" + param + ("/" + c)
  {
    RenderCons(Param, [Lit(c)], param);
    RenderCons(Lit(a), [Param, Lit(c)], param);
    RenderCons(Lit(""), [Lit(a), Param, Lit(c)], param);
    assert [Param] + [Lit(c)] == [Param, Lit(c)];
    assert [Lit(a)] + [Param, Lit(c)] == [Lit(a), Param, Lit(c)];
    assert [Lit("")] + [Lit(a), Param, Lit(c)] == [Lit(""), Lit(a), Param, Lit(c)];
    assert "" + "/" + (a + "/" + (param + "/" + c)) == "/" + a + "/" + param + ("/" + c);
  }

  /** The shapes of fixed pattern, rendered. */
  lemma RenderFixedOne(a: Word, param: string)
    ensures Render([Lit(""), Lit(a)], param) == "/" + a
  {
    RenderCons(Lit(""), [Lit(a)], param);
    assert [Lit("")] + [Lit(a)] == [Lit(""), Lit(a)];
    assert "" + "/" + a == "/" + a;
  }

  lemma RenderFixedTwo(a: Word, b: Word, param: string)
    ensures Render([Lit(""), Lit(a), Lit(b)], param) == "/" + a + "/" + b
  {
    RenderCons(Lit(a), [Lit(b)], param);
    RenderCons(Lit(""), [Lit(a), Lit(b)], param);
    assert [Lit(a)] + [Lit(b)] == [Lit(a), Lit(b)];
    assert [Lit("")] + [Lit(a), Lit(b)] == [Lit(""), Lit(a), Lit(b)];
    assert "" + "/" + (a + "/" + b) == "/" + a + "/" + b;
  }

  lemma RenderFixedThree(a: Word, b: Word, c: Word, param: string)
    ensures Render([Lit(""), Lit(a), Lit(b), Lit(c)], param) == "/" + a + "/" + b + "/" + c
  {
    RenderCons(Lit(b), [Lit(c)], param);
    RenderCons(Lit(a), [Lit(b), Lit(c)], param);
    RenderCons(Lit(""), [Lit(a), Lit(b), Lit(c)], param);
    assert [Lit(b)] + [Lit(c)] == [Lit(b), Lit(c)];
    assert [Lit(a)] + [Lit(b), Lit(c)] == [Lit(a), Lit(b), Lit(c)];
    assert [Lit("")] + [Lit(a), Lit(b), Lit(c)] == [Lit(""), Lit(a), Lit(b), Lit(c)];
    assert "" + "/" + (a + "/" + (b + "/" + c)) == "/" + a + "/" + b + "/" + c;
  }

  /** Endpoints of one verb and one pattern length differ in a fixed segment. */
  lemma FixedSegmentsDistinguish(e1: Endpoint, e2: Endpoint)
    requires VerbOf(e1) == VerbOf(e2) && |PatternOf(e1)| == |PatternOf(e2)|
    requires forall i | 0 <= i < |PatternOf(e1)| :: PatternOf(e1)[i].Lit? && PatternOf(e2)[i].Lit? ==> PatternOf(e1)[i].text == PatternOf(e2)[i].text
    ensures e1 == e2
  {
    var q1, q2 := PatternOf(e1), PatternOf(e2);
    assert q1[1].Lit? && q2[1].Lit? ==> q1[1].text == q2[1].text;
    if |q1| > 2 {
      assert q1[2].Lit? && q2[2].Lit? ==> q1[2].text == q2[2].text;
    }
    if |q1| > 3 {
      assert q1[3].Lit? && q2[3].Lit? ==> q1[3].text == q2[3].text;
    }
  }

  /** Endpoints of one verb whose bound patterns give the same segments are
      the same endpoint, bound to the same parameter. */
  lemma SameSegments(e1: Endpoint, x1: string, e2: Endpoint, x2: string)
    requires VerbOf(e1) == VerbOf(e2)
    requires Segments(PatternOf(e1), x1) == Segments(PatternOf(e2), x2)
    ensures e1 == e2
    ensures ParamIndex(e1).Some? ==> x1 == x2
  {
    var q1, q2 := PatternOf(e1), PatternOf(e2);
    var s1, s2 := Segments(q1, x1), Segments(q2, x2);
    forall i | 0 <= i < |q1| && q1[i].Lit? && q2[i].Lit?
      ensures q1[i].text == q2[i].text
    {
      assert s1[i] == s2[i];
    }
    FixedSegmentsDistinguish(e1, e2);
    if ParamIndex(e1).Some? {
      var k := ParamIndex(e1).value;
      assert s1[k] == x1 && s2[k] == x2;
    }
  }

  /** No request reaches two endpoints, or one endpoint with two parameters. */
  lemma Unambiguous(request: Request, e1: Endpoint, p1: Option<string>, e2: Endpoint, p2: Option<string>)
    requires Reaches(request, e1, p1) && Reaches(request, e2, p2)
    ensures e1 == e2 && p1 == p2
  {
    var x1 := if p1.Some? then p1.value else "";
    var x2 := if p2.Some? then p2.value else "";
    var q1, q2 := PatternOf(e1), PatternOf(e2);
    assert request.path == Render(q1, x1) == Render(q2, x2);
    SplitRender(q1, x1);
    SplitRender(q2, x2);
    SameSegments(e1, x1, e2, x2);
  }
}
