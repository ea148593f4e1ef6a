/** How the client's error classification reads each error text the
    serverless function produces, when that text is the message the hook
    classifies. */
module ErrorTexts {
  import opened Text
  import Bridge
  import Hook

  /** The rate-limit text is recognised as a rate limit. */
  lemma RateLimitTextRecognised()
    ensures Hook.Classify(Bridge.RateLimitMessage) == Hook.TooManyRequests
  {
    assert OccursAt("Rate limit exceeded.", Hook.RateLimitMarker, 0);
    OccursBeforeSuffix("Rate limit exceeded.", " Please try again in a moment.", Hook.RateLimitMarker, 0);
  }

  lemma CreditsTextLacksRateLimit()
    ensures !Contains(Bridge.CreditsMessage, Hook.RateLimitMarker)
  {
    assert Lacks("AI credits exhausted.", 'R');
    assert Lacks(" Please add funds to continue.", 'R');
    LacksConcat("AI credits exhausted.", " Please add funds to continue.", 'R');
    AbsentCharExcludes(Bridge.CreditsMessage, Hook.RateLimitMarker, 0);
  }

  /** The credits text is recognised as exhausted credits. */
  lemma CreditsTextRecognised()
    ensures Hook.Classify(Bridge.CreditsMessage) == Hook.CreditsExhausted
  {
    CreditsTextLacksRateLimit();
    assert OccursAt("AI credits exhausted.", Hook.CreditsMarker, 3);
    OccursBeforeSuffix("AI credits exhausted.", " Please add funds to continue.", Hook.CreditsMarker, 3);
  }

  lemma MissingFieldsLacksRateLimit()
    ensures !Contains(Bridge.MissingFieldsMessage, Hook.RateLimitMarker)
  {
    var a, b, c := "Missing required fields: ", "resume, jobDescription, ", "companyName";
    assert Lacks(a, 'R') && Lacks(b, 'R') && Lacks(c, 'R');
    LacksConcat(a, b, 'R');
    LacksConcat(a + b, c, 'R');
    AbsentCharExcludes(Bridge.MissingFieldsMessage, Hook.RateLimitMarker, 0);
  }

  lemma MissingFieldsLacksCredits()
    ensures !Contains(Bridge.MissingFieldsMessage, Hook.CreditsMarker)
  {
    var a, b, c := "Missing required fields: ", "resume, jobDescription, ", "companyName";
    assert LacksPair(a, 'd', 'i') && LacksPair(b, 'd', 'i') && LacksPair(c, 'd', 'i');
    LacksPairConcat(a, b, 'd', 'i');
    LacksPairConcat(a + b, c, 'd', 'i');
    AbsentPairExcludes(Bridge.MissingFieldsMessage, Hook.CreditsMarker, 3);
  }

  lemma NotConfiguredLacksRateLimit()
    ensures !Contains(Bridge.NotConfiguredMessage, Hook.RateLimitMarker)
  {
    AbsentCharExcludes(Bridge.NotConfiguredMessage, Hook.RateLimitMarker, 0);
  }

  lemma NotConfiguredLacksCredits()
    ensures !Contains(Bridge.NotConfiguredMessage, Hook.CreditsMarker)
  {
    AbsentPairExcludes(Bridge.NotConfiguredMessage, Hook.CreditsMarker, 0);
  }

  lemma InvalidFormatLacksRateLimit()
    ensures !Contains(Bridge.InvalidFormatMessage, Hook.RateLimitMarker)
  {
    AbsentCharExcludes(Bridge.InvalidFormatMessage, Hook.RateLimitMarker, 0);
  }

  lemma InvalidFormatLacksCredits()
    ensures !Contains(Bridge.InvalidFormatMessage, Hook.CreditsMarker)
  {
    AbsentCharExcludes(Bridge.InvalidFormatMessage, Hook.CreditsMarker, 0);
  }

  lemma UnexpectedLacksRateLimit()
    ensures !Contains(Bridge.UnexpectedMessage, Hook.RateLimitMarker)
  {
    AbsentCharExcludes(Bridge.UnexpectedMessage, Hook.RateLimitMarker, 0);
  }

  lemma UnexpectedLacksCredits()
    ensures !Contains(Bridge.UnexpectedMessage, Hook.CreditsMarker)
  {
    AbsentCharExcludes(Bridge.UnexpectedMessage, Hook.CreditsMarker, 4);
  }

  /** The other fixed error texts are shown as a generic failure, with the
      text itself as the toast's description. */
  lemma OtherTextsAreGeneric()
    ensures Hook.Classify(Bridge.MissingFieldsMessage) == Hook.AnalysisFailed(Bridge.MissingFieldsMessage)
    ensures Hook.Classify(Bridge.NotConfiguredMessage) == Hook.AnalysisFailed(Bridge.NotConfiguredMessage)
    ensures Hook.Classify(Bridge.InvalidFormatMessage) == Hook.AnalysisFailed(Bridge.InvalidFormatMessage)
    ensures Hook.Classify(Bridge.UnexpectedMessage) == Hook.AnalysisFailed(Bridge.UnexpectedMessage)
  {
    MissingFieldsLacksRateLimit();
    MissingFieldsLacksCredits();
    NotConfiguredLacksRateLimit();
    NotConfiguredLacksCredits();
    InvalidFormatLacksRateLimit();
    InvalidFormatLacksCredits();
    UnexpectedLacksRateLimit();
    UnexpectedLacksCredits();
  }

  /** Every character of a gateway error text is a character of the prefix
      or a digit. */
  lemma GatewayTextCharacters(n: nat, i: int)
    requires 0 <= i < |Bridge.GatewayErrorMessage(n)|
    ensures var m := Bridge.GatewayErrorMessage(n);
            (i < |Bridge.GatewayErrorPrefix| && m[i] == Bridge.GatewayErrorPrefix[i]) || IsDigit(m[i])
  {
    var d := NatToDecimal(n);
    assert Bridge.GatewayErrorMessage(n) == Bridge.GatewayErrorPrefix + d;
    if i >= |Bridge.GatewayErrorPrefix| {
      assert Bridge.GatewayErrorMessage(n)[i] == d[i - |Bridge.GatewayErrorPrefix|];
    }
  }

  /** A gateway error text, for any upstream status, is shown as a generic
      failure: neither an 'R' nor a 'c' occurs in it. */
  lemma GatewayTextIsGeneric(n: nat)
    ensures Hook.Classify(Bridge.GatewayErrorMessage(n)) == Hook.AnalysisFailed(Bridge.GatewayErrorMessage(n))
  {
    var m := Bridge.GatewayErrorMessage(n);
    var prefix := Bridge.GatewayErrorPrefix;
    assert forall j :: 0 <= j < |prefix| ==> prefix[j] != 'R' && prefix[j] != 'c';
    forall i | 0 <= i < |m| ensures m[i] != 'R' && m[i] != 'c' {
      GatewayTextCharacters(n, i);
    }
    AbsentCharExcludes(m, Hook.RateLimitMarker, 0);
    AbsentCharExcludes(m, Hook.CreditsMarker, 0);
  }
}
