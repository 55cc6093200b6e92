/** The salinity / alkalinity refinement: an optional GSAS point service,
    then a pH heuristic. */
module Salinity {
  import opened SoilTypes
  import Text

  /** What the GSAS point service produced: a failure (the request raised,
      the status was an error, or the body was not a JSON object), or the
      text of `str(obj.get("class", ""))`. */
  datatype GsasAnswer = GsasFailed | GsasClass(shown: string)

  /** `(soilClass, confidence, source)`. */
  datatype Verdict = Verdict(soilClass: Option<SoilType>, confidence: real, source: Option<Source>)

  const AlkalinePh: real := 8.3

  predicate SalineClass(c: string) {
    c == "saline" || c == "saline-sodic"
  }

  predicate AlkalineClass(c: string) {
    c == "sodic" || c == "alkaline"
  }

  /** The service is configured and answered with a class it recognises. */
  predicate GsasDecides(configured: bool, answer: GsasAnswer) {
    configured && answer.GsasClass? &&
    (SalineClass(Text.Lower(answer.shown)) || AlkalineClass(Text.Lower(answer.shown)))
  }

  /** The properties are present and report pH of at least 8.3. */
  predicate PhAlkaline(sg: Option<Props>) {
    Truthy(sg) && PhH2O in sg.value && sg.value[PhH2O] >= AlkalinePh
  }

  /** `_get_salt_alk_class`. The service decides first when it recognises
      the class; otherwise the pH rule; otherwise no class. */
  function SaltAlkClass(gsasConfigured: bool, answer: GsasAnswer, sg: Option<Props>): (v: Verdict)
    ensures v.soilClass.Some? <==> v.source.Some?
    ensures v.soilClass.None? ==> v.confidence == 0.0
    ensures v.source == Some(Gsas) <==> GsasDecides(gsasConfigured, answer)
    ensures v.source == Some(Gsas) ==>
      && v.confidence == 0.9
      && (v.soilClass == Some(Saline) <==> SalineClass(Text.Lower(answer.shown)))
      && (v.soilClass == Some(Alkaline) <==> AlkalineClass(Text.Lower(answer.shown)))
    ensures v.source == Some(HeuristicPh) <==> !GsasDecides(gsasConfigured, answer) && PhAlkaline(sg)
    ensures v.source == Some(HeuristicPh) ==> v.soilClass == Some(Alkaline) && v.confidence == 0.65
    ensures v.source.Some? ==> v.source.value in {Gsas, HeuristicPh}
  {
    var fromService :=
      if gsasConfigured && answer.GsasClass? then
        var c := Text.Lower(answer.shown);
        if SalineClass(c) then Some(Verdict(Some(Saline), 0.9, Some(Gsas)))
        else if AlkalineClass(c) then Some(Verdict(Some(Alkaline), 0.9, Some(Gsas)))
        else None
      else None;
    if fromService.Some? then fromService.value
    else if Truthy(sg) && PhH2O in sg.value && sg.value[PhH2O] >= AlkalinePh then
      Verdict(Some(Alkaline), 0.65, Some(HeuristicPh))
    else
      Verdict(None, 0.0, None)
  }

  /** The service's class is compared case-insensitively: only its
      lower-cased text matters. */
  lemma ClassIsCaseInsensitive(gsasConfigured: bool, shown: string, sg: Option<Props>)
    ensures SaltAlkClass(gsasConfigured, GsasClass(shown), sg) == SaltAlkClass(gsasConfigured, GsasClass(Text.Lower(shown)), sg)
  {
    Text.LowerIdempotent(shown);
  }

  /** Without a configured service the answer is ignored; the pH boundary
      8.3 is alkaline. */
  lemma UnconfiguredServiceIgnored(answer: GsasAnswer, sg: Option<Props>)
    ensures SaltAlkClass(false, answer, sg) == SaltAlkClass(false, GsasFailed, sg)
    ensures SaltAlkClass(false, answer, Some(map[PhH2O := 8.3])) == Verdict(Some(Alkaline), 0.65, Some(HeuristicPh))
  {
    assert PhH2O in map[PhH2O := 8.3];
  }
}
