/**
 * The `.asia` extension: it handles no operation itself, turns the
 * registrant-declaration form fields into eNom's numbered extension
 * attributes, and passes registration data through unchanged. Its list of
 * eligible countries is the module `AsiaCountries`.
 */
module AsiaHandler {
  import opened PhpArray
  import Extension

  /** All three operations fall through to the generic API. */
  const Flags: Extension.Capabilities := Extension.Capabilities(false, false, false)

  /**
   * `setContactParams`: the four declaration attributes, names fixed and
   * values read from the posted form (an absent field reads as "").
   */
  function SetContactParams(data: Params): (p: Params)
    ensures p.Keys == {"attr-name1", "attr-value1", "attr-name2", "attr-value2",
      "attr-name3", "attr-value3", "attr-name4", "attr-value4"}
    ensures p["attr-name1"] == "locality" && p["attr-value1"] == Field(data, "ced_country")
    ensures p["attr-name2"] == "legalentitytype" && p["attr-value2"] == Field(data, "ced_entity_type")
    ensures p["attr-name3"] == "identform" && p["attr-value3"] == Field(data, "ced_id_type")
    ensures p["attr-name4"] == "identnumber" && p["attr-value4"] == Field(data, "ced_id")
  {
    map[]
      ["attr-name1" := "locality"]["attr-value1" := Field(data, "ced_country")]
      ["attr-name2" := "legalentitytype"]["attr-value2" := Field(data, "ced_entity_type")]
      ["attr-name3" := "identform"]["attr-value3" := Field(data, "ced_id_type")]
      ["attr-name4" := "identnumber"]["attr-value4" := Field(data, "ced_id")]
  }

  /** Only the four declaration fields matter: forms that agree on them give the same attributes. */
  lemma SetContactParamsReadsOnlyDeclaration(a: Params, b: Params)
    requires forall f :: f in {"ced_country", "ced_entity_type", "ced_id_type", "ced_id"} ==> Field(a, f) == Field(b, f)
    ensures SetContactParams(a) == SetContactParams(b)
  {
    assert Field(a, "ced_country") == Field(b, "ced_country");
    assert Field(a, "ced_entity_type") == Field(b, "ced_entity_type");
    assert Field(a, "ced_id_type") == Field(b, "ced_id_type");
    assert Field(a, "ced_id") == Field(b, "ced_id");
  }

  /** `setRegistrationParams`: the custom fields pass through whatever the domain. */
  function SetRegistrationParams<D>(domain: D, customFields: Params): (p: Params)
    ensures p == customFields
  {
    customFields
  }

  /** `modifyDomainParams`: delegates to `setRegistrationParams`, so the domain parameters come back unchanged. */
  function ModifyDomainParams(data: Params, domainParams: Params): (p: Params)
    ensures p == domainParams
  {
    SetRegistrationParams(data, domainParams)
  }
}
