/** The provider lookups: plain GETs whose failures reach the caller as the
    original axios error. */
module ProvidersApi {
  import opened Js
  import opened Http
  import opened Routes

  /** `getAllProviders()`: note the trailing slash. */
  const GET_ALL_PROVIDERS: Call := Network(Request(GET, "/api/providers/", Undefined), Propagate)

  lemma AllProvidersRoute()
    ensures Reaches(GET_ALL_PROVIDERS.request, ProvidersAll, None)
  {
    assert "/" + "api" + "/" + "providers" + "/" + "" == "/api/providers/";
    RenderFixedThree("api", "providers", "", "");
    assert PatternOf(ProvidersAll) == [Lit(""), Lit("api"), Lit("providers"), Lit("")];
  }

  /** `getDoctorById(id)`: the catch logs and rethrows the same error. */
  function GetDoctorById(doctorId: string): (c: Call)
    ensures c.Network? && c.policy == Propagate && c.request.verb == GET
    ensures ParamText(doctorId) ==> Reaches(c.request, DoctorById, Some(doctorId))
    ensures c.request.path == "/doctors/" + doctorId
  {
    assert "/" + "doctors" + "/" == "/doctors/";
    RenderParamLast("doctors", doctorId);
    assert PatternOf(DoctorById) == [Lit(""), Lit("doctors"), Param];
    Network(Request(GET, "/doctors/" + doctorId, Undefined), Propagate)
  }

  /** `getDoctorsBySpecialization(spec)`. */
  function GetDoctorsBySpecialization(specialization: string): (c: Call)
    ensures c.Network? && c.policy == Propagate && c.request.verb == GET
    ensures ParamText(specialization) ==> Reaches(c.request, DoctorsBySpecialization, Some(specialization))
    ensures c.request.path == "/doctors/specialization/" + specialization
  {
    assert "/" + "doctors" + "/" + "specialization" + "/" == "/doctors/specialization/";
    RenderParamAfterTwo("doctors", "specialization", specialization);
    assert PatternOf(DoctorsBySpecialization) == [Lit(""), Lit("doctors"), Lit("specialization"), Param];
    Network(Request(GET, "/doctors/specialization/" + specialization, Undefined), Propagate)
  }

  /** The id is interpolated unescaped: an id of the form
      `specialization/<s>` issues exactly the specialization query, and that
      request reaches no doctor-by-id endpoint at all. */
  lemma DoctorIdAliasesSpecialization(s: string)
    requires ParamText(s)
    ensures GetDoctorById("specialization/" + s) == GetDoctorsBySpecialization(s)
    ensures forall p :: !Reaches(GetDoctorById("specialization/" + s).request, DoctorById, p)
  {
    assert "/doctors/" + ("specialization/" + s) == "/doctors/specialization/" + s by {
      assert "/doctors/" + "specialization/" == "/doctors/specialization/";
    }
    var request := GetDoctorsBySpecialization(s).request;
    forall p | Reaches(request, DoctorById, p)
      ensures false
    {
      Unambiguous(request, DoctorById, p, DoctorsBySpecialization, Some(s));
    }
  }
}
