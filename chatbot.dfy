/**
 * The rule-based response engine of the chat widget (static/js/chatbot.js):
 * confidence tiers, the canned texts, the two keyword routers and the
 * composition of replies. Everything here is a pure function of its inputs;
 * the widget's mutable state lives in module ChatSession.
 */
module Chatbot {
  import opened Wrappers
  import opened Text

  // ===========================================================================
  // Predictions and confidence tiers
  // ===========================================================================

  /**
   * A JavaScript number as the engine uses it: `value` is what comparisons
   * see (None for `undefined` or NaN, which every comparison rejects) and
   * `text` is how the number prints when it is spliced into a string.
   */
  datatype Score = Score(value: Option<real>, text: string)

  /** The prediction object the page receives from the classifier. */
  datatype Prediction = Prediction(predictedClass: string, confidence: Score)

  datatype Tier = High | Medium | Low

  datatype ConfidenceLevel = ConfidenceLevel(level: Tier, description: string)

  const HighThreshold: real := 75.0
  const MediumThreshold: real := 50.0

  /** The qualifier shown with each tier. */
  function Description(t: Tier): string
  {
    match t
    case High => "very confident"
    case Medium => "moderately confident"
    case Low => "not very confident"
  }

  /** `getConfidenceLevel`: thresholds are inclusive lower bounds, tried from the top. */
  function GetConfidenceLevel(confidence: Option<real>): (c: ConfidenceLevel)
    ensures c.description == Description(c.level)
    ensures c.level == High <==> confidence.Some? && confidence.value >= HighThreshold
    ensures c.level == Medium <==> confidence.Some? && MediumThreshold <= confidence.value < HighThreshold
    ensures c.level == Low <==> confidence.None? || confidence.value < MediumThreshold
  {
    if confidence.Some? && confidence.value >= HighThreshold then ConfidenceLevel(High, Description(High))
    else if confidence.Some? && confidence.value >= MediumThreshold then ConfidenceLevel(Medium, Description(Medium))
    else ConfidenceLevel(Low, Description(Low))
  }

  function Rank(t: Tier): nat
  {
    match t
    case Low => 0
    case Medium => 1
    case High => 2
  }

  /** A higher score never lands in a lower tier. */
  lemma TierMonotone(a: real, b: real)
    requires a <= b
    ensures Rank(GetConfidenceLevel(Some(a)).level) <= Rank(GetConfidenceLevel(Some(b)).level)
  {
  }

  /** Each tier has its own description, so the description determines the tier. */
  lemma DescriptionDeterminesTier(s: Tier, t: Tier)
    requires Description(s) == Description(t)
    ensures s == t
  {
    assert |Description(High)| == 14 && |Description(Medium)| == 20 && |Description(Low)| == 18;
  }

  // ===========================================================================
  // Templates
  // ===========================================================================

  const DiseaseSlot := "{disease}"
  const ConfidenceSlot := "{confidence}"
  const LevelSlot := "{confidenceLevel}"
  const AccuracySlot := "{accuracy}"

  /** The accuracy figure the accuracy answer quotes; it is fixed, not taken from the prediction. */
  const ModelAccuracy := "88-95"

  // confidenceExplanations.high / .medium / .low, cut at their placeholders
  const HighBeforeScore :=
    "The model is very " +
    "confident in this " +
    "classification with "
  const HighBeforeClass :=
    "% confidence. This " +
    "means the visual " +
    "characteristics " +
    "strongly match "
  const MediumBeforeScore :=
    "The model has " +
    "moderate confidence " +
    "in this " +
    "classification with "
  const MediumBeforeClass :=
    "% confidence. The " +
    "visual " +
    "characteristics are " +
    "somewhat consistent " +
    "with "
  const LowBeforeScore :=
    "The model has low " +
    "confidence in this " +
    "classification with "
  const LowTail :=
    "% confidence. The " +
    "visual " +
    "characteristics " +
    "show some " +
    "uncertainty, and " +
    "expert review is " +
    "highly recommended."

  function ExplanationTemplate(t: Tier): string
  {
    match t
    case High => HighBeforeScore + (ConfidenceSlot + (HighBeforeClass + (DiseaseSlot + ".")))
    case Medium => MediumBeforeScore + (ConfidenceSlot + (MediumBeforeClass + (DiseaseSlot + ".")))
    case Low => LowBeforeScore + (ConfidenceSlot + LowTail)
  }

  // questionResponses.meaning, cut at its placeholders ({disease} occurs twice)
  const MeaningBeforeClass :=
    "The predicted class " +
    "\'"
  const MeaningBeforeMatch :=
    "\' indicates that " +
    "the model has " +
    "identified visual " +
    "characteristics " +
    "consistent with "
  const MeaningBeforeScore :=
    ". With a confidence " +
    "score of "
  const MeaningBeforeLevel :=
    "%, the system is "
  const MeaningTail :=
    " confident in this " +
    "assessment."

  const MeaningTemplate :=
    MeaningBeforeClass + (DiseaseSlot + (MeaningBeforeMatch + (DiseaseSlot + (MeaningBeforeScore +
    (ConfidenceSlot + (MeaningBeforeLevel + (LevelSlot + MeaningTail)))))))

  // questionResponses.accuracy, cut at its placeholder
  const AccuracyHeading :=
    "The accuracy of our " +
    "model depends on " +
    "several factors:\n"
  const AccuracyImageQuality :=
    "✓ Image Quality: " +
    "Clear, well-lit " +
    "images produce more " +
    "reliable results\n"
  const AccuracyImageAngle :=
    "✓ Image Angle: " +
    "Multiple angles " +
    "improve accuracy\n"
  const AccuracyLighting :=
    "✓ Lighting: Natural " +
    "or even lighting is " +
    "ideal\n"
  const AccuracyCleanliness :=
    "✓ Cleanliness: " +
    "Clean skin surface " +
    "without obstruction\n"
  const AccuracyClaim :=
    "Our model typically " +
    "achieves "
  const AccuracyTail :=
    "% accuracy on " +
    "properly captured " +
    "images."

  const AccuracyBeforeFigure :=
    AccuracyHeading + AccuracyImageQuality + AccuracyImageAngle + AccuracyLighting + AccuracyCleanliness +
    "\n" + AccuracyClaim

  const AccuracyTemplate := AccuracyBeforeFigure + (AccuracySlot + AccuracyTail)

  const TrustAnswer :=
    "You should consider " +
    "these factors when " +
    "trusting results:\n" +
    "⚠️ This is AI " +
    "analysis, not " +
    "professional " +
    "diagnosis\n" +
    "✓ Results are based " +
    "on visual patterns " +
    "only\n" +
    "✓ Professional " +
    "medical " +
    "consultation is " +
    "essential\n" +
    "✓ Use this as a " +
    "supportive tool, " +
    "not a definitive " +
    "diagnosis\n" +
    "\n" +
    "Always consult a " +
    "healthcare provider " +
    "for final diagnosis."

  const ImprovementAnswer :=
    "To get better " +
    "predictions, follow " +
    "these guidelines:\n" +
    "📸 Image Quality: " +
    "Use a " +
    "high-resolution " +
    "camera\n" +
    "💡 Lighting: Use " +
    "natural daylight or " +
    "bright indoor " +
    "lighting\n" +
    "📐 Angle: Capture " +
    "the affected area " +
    "straight-on\n" +
    "🧼 Cleanliness: " +
    "Ensure the skin is " +
    "clean and dry\n" +
    "🎯 Focus: Make sure " +
    "the affected area " +
    "is the main subject\n" +
    "\n" +
    "These factors " +
    "significantly " +
    "impact prediction " +
    "accuracy."

  const DisclaimerAnswer :=
    "⚠️ Important " +
    "Disclaimer:\n" +
    "• This tool uses AI " +
    "image analysis only\n" +
    "• It is NOT a " +
    "medical diagnosis\n" +
    "• Results should " +
    "NOT replace " +
    "professional " +
    "medical advice\n" +
    "• Always consult a " +
    "qualified " +
    "healthcare " +
    "professional\n" +
    "• Use this system " +
    "as a supplementary " +
    "tool, not a " +
    "definitive " +
    "diagnosis\n" +
    "\n" +
    "Your health is " +
    "important—seek " +
    "professional " +
    "guidance!"

  /** messageTemplates.diseaseGuidance */
  const DiseaseGuidance: map<string, string> := map[
    "Measles" :=
        "Based on the " +
        "prediction of " +
        "Measles:\n" +
        "• Seek immediate " +
        "medical attention\n" +
        "• Isolation may be " +
        "required\n" +
        "• Vaccination " +
        "status is important\n" +
        "• Symptoms include " +
        "fever, cough, and " +
        "rash\n" +
        "\n" +
        "⚠️ This is not " +
        "professional " +
        "medical advice. " +
        "Please consult a " +
        "doctor immediately.",
    "Monkeypox" :=
        "Based on the " +
        "prediction of " +
        "Monkeypox:\n" +
        "• Medical " +
        "consultation is " +
        "strongly " +
        "recommended\n" +
        "• Avoid direct " +
        "contact with others\n" +
        "• Keep the area " +
        "clean\n" +
        "• Monitor for " +
        "symptom progression\n" +
        "\n" +
        "⚠️ This is not " +
        "professional " +
        "medical advice. " +
        "Please consult a " +
        "doctor.",
    "Chickenpox" :=
        "Based on the " +
        "prediction of " +
        "Chickenpox:\n" +
        "• Medical " +
        "consultation is " +
        "recommended\n" +
        "• Rest and " +
        "hydration are " +
        "important\n" +
        "• Avoid scratching " +
        "to prevent " +
        "infection\n" +
        "• Keep the area " +
        "clean and dry\n" +
        "\n" +
        "⚠️ This is not " +
        "professional " +
        "medical advice. " +
        "Please consult a " +
        "doctor.",
    "Normal" :=
        "Great news! The " +
        "model indicates " +
        "normal, healthy " +
        "skin.\n" +
        "✓ Continue with " +
        "your regular skin " +
        "care routine\n" +
        "✓ Maintain good " +
        "hygiene practices\n" +
        "✓ Protect your skin " +
        "from environmental " +
        "damage\n" +
        "✓ If concerned " +
        "about any changes, " +
        "consult a doctor\n" +
        "\n" +
        "Stay healthy!"
  ]

  const Greetings: seq<string> := [
    "👋 Hi there! I\'m " +
      "MediBot. I\'m here " +
      "to help you " +
      "understand your " +
      "prediction results. " +
      "What would you like " +
      "to know?",
    "Hello! 👋 I can " +
      "explain your test " +
      "results, answer " +
      "questions about " +
      "accuracy, and " +
      "provide guidance. " +
      "How can I assist " +
      "you?",
    "Welcome! 👋 I\'m " +
      "MediBot, your AI " +
      "assistant. Feel " +
      "free to ask me " +
      "anything about your " +
      "prediction!"
  ]

  const FollowUpPrompts: seq<string> := [
    "Would you like to " +
      "know more about " +
      "improving " +
      "prediction accuracy?",
    "Do you have any " +
      "other questions " +
      "about your results?",
    "Would you like " +
      "guidance on how to " +
      "capture better " +
      "images?",
    "Can I help explain " +
      "anything else about " +
      "your prediction?"
  ]

  /** The bot's answer to any question asked before a prediction exists. */
  const NoPredictionMessage :=
    "Please make a " +
    "prediction first, " +
    "and then I can help " +
    "explain the results!"

  // The texts above are written in short pieces: the lemmas below inspect
  // them character by character, which the verifier does only for short
  // literals, so each lemma looks at one of them.

  lemma HighBeforeScoreLacksBrace()
    ensures '{' !in HighBeforeScore && '⚠' !in HighBeforeScore
  {
    assert '{' !in "The model is very " && '⚠' !in "The model is very ";
    assert '{' !in "confident in this " && '⚠' !in "confident in this ";
    assert '{' !in "classification with " && '⚠' !in "classification with ";
  }

  lemma HighBeforeClassLacksBrace()
    ensures '{' !in HighBeforeClass && '⚠' !in HighBeforeClass
  {
    assert '{' !in "% confidence. This " && '⚠' !in "% confidence. This ";
    assert '{' !in "means the visual " && '⚠' !in "means the visual ";
    assert '{' !in "characteristics " && '⚠' !in "characteristics ";
    assert '{' !in "strongly match " && '⚠' !in "strongly match ";
  }

  lemma MediumBeforeScoreLacksBrace()
    ensures '{' !in MediumBeforeScore && '⚠' !in MediumBeforeScore
  {
    assert '{' !in "The model has " && '⚠' !in "The model has ";
    assert '{' !in "moderate confidence " && '⚠' !in "moderate confidence ";
    assert '{' !in "in this " && '⚠' !in "in this ";
    assert '{' !in "classification with " && '⚠' !in "classification with ";
  }

  lemma MediumBeforeClassLacksBrace()
    ensures '{' !in MediumBeforeClass && '⚠' !in MediumBeforeClass
  {
    assert '{' !in "% confidence. The " && '⚠' !in "% confidence. The ";
    assert '{' !in "visual " && '⚠' !in "visual ";
    assert '{' !in "characteristics are " && '⚠' !in "characteristics are ";
    assert '{' !in "somewhat consistent " && '⚠' !in "somewhat consistent ";
    assert '{' !in "with " && '⚠' !in "with ";
  }

  lemma LowBeforeScoreLacksBrace()
    ensures '{' !in LowBeforeScore
  {
    assert '{' !in "The model has low ";
    assert '{' !in "confidence in this ";
    assert '{' !in "classification with ";
  }

  lemma LowTailLacksBrace()
    ensures '{' !in LowTail
  {
    assert '{' !in "% confidence. The ";
    assert '{' !in "visual ";
    assert '{' !in "characteristics ";
    assert '{' !in "show some ";
    assert '{' !in "uncertainty, and ";
    assert '{' !in "expert review is ";
    assert '{' !in "highly recommended.";
  }

  lemma MeaningBeforeClassLacksBrace()
    ensures '{' !in MeaningBeforeClass
  {
    assert '{' !in "The predicted class ";
    assert '{' !in "\'";
  }

  lemma MeaningBeforeMatchLacksBrace()
    ensures '{' !in MeaningBeforeMatch
  {
    assert '{' !in "\' indicates that ";
    assert '{' !in "the model has ";
    assert '{' !in "identified visual ";
    assert '{' !in "characteristics ";
    assert '{' !in "consistent with ";
  }

  lemma MeaningBeforeScoreLacksBrace()
    ensures '{' !in MeaningBeforeScore
  {
    assert '{' !in ". With a confidence ";
    assert '{' !in "score of ";
  }

  lemma MeaningBeforeLevelLacksBrace()
    ensures '{' !in MeaningBeforeLevel
  {
    assert '{' !in "%, the system is ";
  }

  lemma AccuracyHeadingLacksBrace()
    ensures '{' !in AccuracyHeading
  {
    assert '{' !in "The accuracy of our ";
    assert '{' !in "model depends on ";
    assert '{' !in "several factors:\n";
  }

  lemma AccuracyImageQualityLacksBrace()
    ensures '{' !in AccuracyImageQuality
  {
    assert '{' !in "✓ Image Quality: ";
    assert '{' !in "Clear, well-lit ";
    assert '{' !in "images produce more ";
    assert '{' !in "reliable results\n";
  }

  lemma AccuracyImageAngleLacksBrace()
    ensures '{' !in AccuracyImageAngle
  {
    assert '{' !in "✓ Image Angle: ";
    assert '{' !in "Multiple angles ";
    assert '{' !in "improve accuracy\n";
  }

  lemma AccuracyLightingLacksBrace()
    ensures '{' !in AccuracyLighting
  {
    assert '{' !in "✓ Lighting: Natural ";
    assert '{' !in "or even lighting is ";
    assert '{' !in "ideal\n";
  }

  lemma AccuracyCleanlinessLacksBrace()
    ensures '{' !in AccuracyCleanliness
  {
    assert '{' !in "✓ Cleanliness: ";
    assert '{' !in "Clean skin surface ";
    assert '{' !in "without obstruction\n";
  }

  lemma AccuracyClaimLacksBrace()
    ensures '{' !in AccuracyClaim
  {
    assert '{' !in "Our model typically ";
    assert '{' !in "achieves ";
  }

  lemma AccuracyBeforeFigureLacksBrace()
    ensures '{' !in AccuracyBeforeFigure
  {
    AccuracyHeadingLacksBrace();
    AccuracyImageQualityLacksBrace();
    AccuracyImageAngleLacksBrace();
    AccuracyLightingLacksBrace();
    AccuracyCleanlinessLacksBrace();
    AccuracyClaimLacksBrace();
  }

  // ===========================================================================
  // Filling templates (String.prototype.replace with a string pattern: first occurrence only)
  // ===========================================================================

  /** The tier sentence of the explanation: `{confidence}` is filled first, then `{disease}`. */
  function ConfidenceExplanation(t: Tier, confidenceText: string, disease: string): string
  {
    ReplaceFirst(ReplaceFirst(ExplanationTemplate(t), ConfidenceSlot, confidenceText), DiseaseSlot, disease)
  }

  /** The answer to a "what does it mean" question. */
  function MeaningAnswer(p: Prediction): string
  {
    var level := GetConfidenceLevel(p.confidence.value);
    ReplaceFirst(ReplaceFirst(ReplaceFirst(MeaningTemplate, DiseaseSlot, p.predictedClass),
                              ConfidenceSlot, p.confidence.text),
                 LevelSlot, level.description)
  }

  /** The answer to an accuracy question. */
  function AccuracyAnswer(): string
  {
    ReplaceFirst(AccuracyTemplate, AccuracySlot, ModelAccuracy)
  }

  /** Filling the two slots of a high or medium sentence. */
  lemma FillTwoSlots(a: string, b: string, c: string, d: string)
    requires '{' !in a && '{' !in b && '{' !in c
    ensures ReplaceFirst(ReplaceFirst(a + (ConfidenceSlot + (b + (DiseaseSlot + "."))), ConfidenceSlot, c), DiseaseSlot, d)
         == a + (c + (b + (d + ".")))
  {
    FillSlotRight(a, ConfidenceSlot, b + (DiseaseSlot + "."), c);
    SkipPrefix(a, c + (b + (DiseaseSlot + ".")), DiseaseSlot, d);
    SkipPrefix(c, b + (DiseaseSlot + "."), DiseaseSlot, d);
    FillSlotRight(b, DiseaseSlot, ".", d);
  }

  /**
   * The tier sentence with its slots filled: the score and the disease are
   * spliced in where the template has them (the low sentence names no disease,
   * so the second replacement changes nothing).
   */
  lemma ConfidenceExplanationFilled(t: Tier, c: string, d: string)
    requires '{' !in c
    ensures t == High ==> ConfidenceExplanation(t, c, d) == HighBeforeScore + (c + (HighBeforeClass + (d + ".")))
    ensures t == Medium ==> ConfidenceExplanation(t, c, d) == MediumBeforeScore + (c + (MediumBeforeClass + (d + ".")))
    ensures t == Low ==> ConfidenceExplanation(t, c, d) == LowBeforeScore + (c + LowTail)
  {
    match t
    case High =>
      HighBeforeScoreLacksBrace();
      HighBeforeClassLacksBrace();
      FillTwoSlots(HighBeforeScore, HighBeforeClass, c, d);
    case Medium =>
      MediumBeforeScoreLacksBrace();
      MediumBeforeClassLacksBrace();
      FillTwoSlots(MediumBeforeScore, MediumBeforeClass, c, d);
    case Low =>
      LowBeforeScoreLacksBrace();
      LowTailLacksBrace();
      FillSlotRight(LowBeforeScore, ConfidenceSlot, LowTail, c);
      var s := LowBeforeScore + (c + LowTail);
      MissingChar(s, DiseaseSlot, '{');
      ReplaceFirstAbsent(s, DiseaseSlot, d);
  }

  /** The first pass over the meaning template fills the first `{disease}`. */
  lemma MeaningFirstPass(s0: string, s1: string, s2: string, s3: string, s4: string, d: string)
    requires '{' !in s0
    ensures ReplaceFirst(s0 + (DiseaseSlot + (s1 + (DiseaseSlot + (s2 + (ConfidenceSlot + (s3 + (LevelSlot + s4))))))), DiseaseSlot, d)
         == s0 + (d + (s1 + (DiseaseSlot + (s2 + (ConfidenceSlot + (s3 + (LevelSlot + s4)))))))
  {
    FillSlotRight(s0, DiseaseSlot, s1 + (DiseaseSlot + (s2 + (ConfidenceSlot + (s3 + (LevelSlot + s4))))), d);
  }

  /** The second pass skips the surviving `{disease}` and fills `{confidence}`. */
  lemma MeaningSecondPass(s0: string, s1: string, s2: string, s3: string, s4: string, d: string, c: string)
    requires '{' !in s0 && '{' !in s1 && '{' !in s2 && '{' !in d
    ensures ReplaceFirst(s0 + (d + (s1 + (DiseaseSlot + (s2 + (ConfidenceSlot + (s3 + (LevelSlot + s4))))))), ConfidenceSlot, c)
         == s0 + (d + (s1 + (DiseaseSlot + (s2 + (c + (s3 + (LevelSlot + s4)))))))
  {
    var rest := s2 + (ConfidenceSlot + (s3 + (LevelSlot + s4)));
    SkipPrefix(s0, d + (s1 + (DiseaseSlot + rest)), ConfidenceSlot, c);
    SkipPrefix(d, s1 + (DiseaseSlot + rest), ConfidenceSlot, c);
    SkipPrefix(s1, DiseaseSlot + rest, ConfidenceSlot, c);
    SkipWord(DiseaseSlot, rest, ConfidenceSlot, c);
    FillSlotRight(s2, ConfidenceSlot, s3 + (LevelSlot + s4), c);
  }

  /** The third pass skips the surviving `{disease}` and fills `{confidenceLevel}`. */
  lemma MeaningThirdPass(s0: string, s1: string, s2: string, s3: string, s4: string, d: string, c: string, l: string)
    requires '{' !in s0 && '{' !in s1 && '{' !in s2 && '{' !in s3 && '{' !in d && '{' !in c
    ensures ReplaceFirst(s0 + (d + (s1 + (DiseaseSlot + (s2 + (c + (s3 + (LevelSlot + s4))))))), LevelSlot, l)
         == s0 + (d + (s1 + (DiseaseSlot + (s2 + (c + (s3 + (l + s4)))))))
  {
    var rest := s2 + (c + (s3 + (LevelSlot + s4)));
    SkipPrefix(s0, d + (s1 + (DiseaseSlot + rest)), LevelSlot, l);
    SkipPrefix(d, s1 + (DiseaseSlot + rest), LevelSlot, l);
    SkipPrefix(s1, DiseaseSlot + rest, LevelSlot, l);
    SkipWord(DiseaseSlot, rest, LevelSlot, l);
    SkipPrefix(s2, c + (s3 + (LevelSlot + s4)), LevelSlot, l);
    SkipPrefix(c, s3 + (LevelSlot + s4), LevelSlot, l);
    FillSlotRight(s3, LevelSlot, s4, l);
  }

  /**
   * The meaning answer replaces only the FIRST `{disease}`: the second one
   * stays in the text literally, while the score and its qualifier are filled.
   */
  lemma MeaningAnswerFilled(p: Prediction)
    requires '{' !in p.predictedClass && '{' !in p.confidence.text
    ensures MeaningAnswer(p) ==
      MeaningBeforeClass + (p.predictedClass + (MeaningBeforeMatch + (DiseaseSlot + (MeaningBeforeScore +
      (p.confidence.text + (MeaningBeforeLevel + (GetConfidenceLevel(p.confidence.value).description + MeaningTail)))))))
  {
    MeaningBeforeClassLacksBrace();
    MeaningBeforeMatchLacksBrace();
    MeaningBeforeScoreLacksBrace();
    MeaningBeforeLevelLacksBrace();
    var s0, s1, s2, s3, s4 := MeaningBeforeClass, MeaningBeforeMatch, MeaningBeforeScore, MeaningBeforeLevel, MeaningTail;
    var d, c, l := p.predictedClass, p.confidence.text, GetConfidenceLevel(p.confidence.value).description;
    MeaningFirstPass(s0, s1, s2, s3, s4, d);
    MeaningSecondPass(s0, s1, s2, s3, s4, d, c);
    MeaningThirdPass(s0, s1, s2, s3, s4, d, c, l);
  }

  /** The meaning answer names the disease and the score, and still shows a raw `{disease}`. */
  lemma MeaningAnswerMentions(p: Prediction)
    requires '{' !in p.predictedClass && '{' !in p.confidence.text
    ensures Contains(MeaningAnswer(p), p.predictedClass)
    ensures Contains(MeaningAnswer(p), p.confidence.text)
    ensures Contains(MeaningAnswer(p), DiseaseSlot)
  {
    MeaningAnswerFilled(p);
    var d, c, l := p.predictedClass, p.confidence.text, GetConfidenceLevel(p.confidence.value).description;
    var t4 := c + (MeaningBeforeLevel + (l + MeaningTail));
    var t3 := DiseaseSlot + (MeaningBeforeScore + t4);
    var t2 := d + (MeaningBeforeMatch + t3);
    ContainsStart(c, MeaningBeforeLevel + (l + MeaningTail));
    ContainsRight(MeaningBeforeScore, t4, c);
    ContainsRight(DiseaseSlot, MeaningBeforeScore + t4, c);
    ContainsStart(DiseaseSlot, MeaningBeforeScore + t4);
    ContainsRight(MeaningBeforeMatch, t3, c);
    ContainsRight(MeaningBeforeMatch, t3, DiseaseSlot);
    ContainsRight(d, MeaningBeforeMatch + t3, c);
    ContainsRight(d, MeaningBeforeMatch + t3, DiseaseSlot);
    ContainsStart(d, MeaningBeforeMatch + t3);
    ContainsRight(MeaningBeforeClass, t2, c);
    ContainsRight(MeaningBeforeClass, t2, DiseaseSlot);
    ContainsRight(MeaningBeforeClass, t2, d);
  }

  /** The accuracy answer always quotes the fixed figure, whatever the prediction. */
  lemma AccuracyAnswerFilled()
    ensures AccuracyAnswer() == AccuracyBeforeFigure + (ModelAccuracy + AccuracyTail)
    ensures Contains(AccuracyAnswer(), ModelAccuracy)
  {
    AccuracyBeforeFigureLacksBrace();
    FillSlotRight(AccuracyBeforeFigure, AccuracySlot, AccuracyTail, ModelAccuracy);
    ContainsStart(ModelAccuracy, AccuracyTail);
    ContainsRight(AccuracyBeforeFigure, ModelAccuracy + AccuracyTail, ModelAccuracy);
  }

  // ===========================================================================
  // The explanation of a new prediction
  // ===========================================================================

  const ExplanationOpening :=
    "Great! I\'ve " +
    "analyzed the " +
    "prediction:\n" +
    "\n"

  /** The three recommendations added only when confidence is low. */
  const LowAdviceHeading := "⚠️" + " Because confidence is low, I strongly recommend:\n"

  const LowConfidenceAdvice :=
    LowAdviceHeading
    + "• Retaking the image with better lighting\n"
    + "• Consulting a healthcare professional\n"
    + "• Not relying solely on this result\n\n"

  const ExplanationClosing :=
    "Would you like to " +
    "know more about " +
    "what this means or " +
    "how to improve " +
    "future predictions?"

  function DiseaseLine(disease: string): string
  {
    "🔍 **Predicted " + "Disease:** " + (disease + "\n")
  }

  function ScoreLine(confidenceText: string): string
  {
    "📊 **Confidence " + "Score:** " + (confidenceText + "%\n")
  }

  function LevelLine(description: string): string
  {
    "💡 **Confidence " + "Level:** " + (description + "\n\n")
  }

  function AdviceBlock(t: Tier): string
  {
    if t == Low then LowConfidenceAdvice else ""
  }

  /** `generatePredictionExplanation`, as the text it returns. */
  function PredictionExplanation(p: Prediction): string
  {
    var level := GetConfidenceLevel(p.confidence.value);
    ExplanationOpening
    + DiseaseLine(p.predictedClass)
    + ScoreLine(p.confidence.text)
    + LevelLine(level.description)
    + (ConfidenceExplanation(level.level, p.confidence.text, p.predictedClass) + "\n\n")
    + AdviceBlock(level.level)
    + ExplanationClosing
  }

  /** `generatePredictionExplanation`: the text is accumulated line by line. */
  method GeneratePredictionExplanation(p: Prediction) returns (explanation: string)
    ensures explanation == PredictionExplanation(p)
  {
    var disease := p.predictedClass;
    var confidence := p.confidence;
    var confidenceData := GetConfidenceLevel(confidence.value);
    explanation := ExplanationOpening;
    explanation := explanation + DiseaseLine(disease);
    explanation := explanation + ScoreLine(confidence.text);
    explanation := explanation + LevelLine(confidenceData.description);
    explanation := explanation + (ConfidenceExplanation(confidenceData.level, confidence.text, disease) + "\n\n");
    if confidenceData.level == Low {
      explanation := explanation + LowConfidenceAdvice;
    }
    explanation := explanation + ExplanationClosing;
  }

  /** The explanation names the disease, the score and the tier's qualifier, and ends with the closing question. */
  lemma ExplanationMentions(p: Prediction)
    ensures Contains(PredictionExplanation(p), p.predictedClass)
    ensures Contains(PredictionExplanation(p), p.confidence.text + "%")
    ensures Contains(PredictionExplanation(p), GetConfidenceLevel(p.confidence.value).description)
    ensures Contains(PredictionExplanation(p), ExplanationClosing)
    ensures var e := PredictionExplanation(p);
      |ExplanationClosing| <= |e| && e[|e| - |ExplanationClosing|..] == ExplanationClosing
  {
    var level := GetConfidenceLevel(p.confidence.value);
    var d, c, l := p.predictedClass, p.confidence.text, level.description;
    var x3 := ExplanationOpening + DiseaseLine(d) + ScoreLine(c) + LevelLine(l);
    var x4 := x3 + (ConfidenceExplanation(level.level, c, d) + "\n\n");
    var x5 := x4 + AdviceBlock(level.level);
    HeaderMentions(d, c, l);
    ContainsLeft(x3, ConfidenceExplanation(level.level, c, d) + "\n\n", d);
    ContainsLeft(x3, ConfidenceExplanation(level.level, c, d) + "\n\n", c + "%");
    ContainsLeft(x3, ConfidenceExplanation(level.level, c, d) + "\n\n", l);
    ContainsLeft(x4, AdviceBlock(level.level), d);
    ContainsLeft(x4, AdviceBlock(level.level), c + "%");
    ContainsLeft(x4, AdviceBlock(level.level), l);
    ContainsLeft(x5, ExplanationClosing, d);
    ContainsLeft(x5, ExplanationClosing, c + "%");
    ContainsLeft(x5, ExplanationClosing, l);
    ContainsEnd(x5, ExplanationClosing);
    EndsWith(x5, ExplanationClosing);
  }

  /** The first four lines of the explanation name the disease, the score with its percent sign, and the qualifier. */
  lemma HeaderMentions(d: string, c: string, l: string)
    ensures var x3 := ExplanationOpening + DiseaseLine(d) + ScoreLine(c) + LevelLine(l);
      Contains(x3, d) && Contains(x3, c + "%") && Contains(x3, l)
  {
    var x1 := ExplanationOpening + DiseaseLine(d);
    var x2 := x1 + ScoreLine(c);
    // the disease
    ContainsStart(d, "\n");
    ContainsRight("🔍 **Predicted " + "Disease:** ", d + "\n", d);
    ContainsRight(ExplanationOpening, DiseaseLine(d), d);
    ContainsLeft(x1, ScoreLine(c), d);
    ContainsLeft(x2, LevelLine(l), d);
    // the score with its percent sign
    assert c + "%\n" == (c + "%") + "\n";
    ContainsStart(c + "%", "\n");
    ContainsRight("📊 **Confidence " + "Score:** ", c + "%\n", c + "%");
    ContainsRight(x1, ScoreLine(c), c + "%");
    ContainsLeft(x2, LevelLine(l), c + "%");
    // the qualifier
    ContainsStart(l, "\n\n");
    ContainsRight("💡 **Confidence " + "Level:** ", l + "\n\n", l);
    ContainsRight(x2, LevelLine(l), l);
  }

  lemma ReplaceFirstKeepsOut(x: char, s: string, pat: string, rep: string)
    requires x !in s && x !in rep
    ensures x !in ReplaceFirst(s, pat, rep)
    decreases |s|
  {
    if |s| >= |pat| && s[..|pat|] != pat {
      ReplaceFirstKeepsOut(x, s[1..], pat, rep);
    }
  }

  lemma OpeningLacksWarningSign()
    ensures '⚠' !in ExplanationOpening
  {
    assert '⚠' !in "Great! I\'ve ";
    assert '⚠' !in "analyzed the ";
    assert '⚠' !in "prediction:\n";
    assert '⚠' !in "\n";
  }

  lemma ClosingLacksWarningSign()
    ensures '⚠' !in ExplanationClosing
  {
    assert '⚠' !in "Would you like to ";
    assert '⚠' !in "know more about ";
    assert '⚠' !in "what this means or ";
    assert '⚠' !in "how to improve ";
    assert '⚠' !in "future predictions?";
  }

  lemma AdviceHasWarningSign()
    ensures '⚠' in LowConfidenceAdvice
  {
    assert "⚠️"[0] == '⚠';
  }

  /** The high and medium sentences carry no warning sign of their own. */
  lemma SentenceLacksWarningSign(t: Tier, c: string, d: string)
    requires t != Low && '⚠' !in c && '⚠' !in d
    ensures '⚠' !in ConfidenceExplanation(t, c, d)
  {
    if t == High {
      HighBeforeScoreLacksBrace();
      HighBeforeClassLacksBrace();
    } else {
      MediumBeforeScoreLacksBrace();
      MediumBeforeClassLacksBrace();
    }
    ReplaceFirstKeepsOut('⚠', ExplanationTemplate(t), ConfidenceSlot, c);
    ReplaceFirstKeepsOut('⚠', ReplaceFirst(ExplanationTemplate(t), ConfidenceSlot, c), DiseaseSlot, d);
  }

  lemma DiseaseLineLacksWarningSign(d: string)
    requires '⚠' !in d
    ensures '⚠' !in DiseaseLine(d)
  {
    assert '⚠' !in "🔍 **Predicted " && '⚠' !in "Disease:** ";
  }

  lemma ScoreLineLacksWarningSign(c: string)
    requires '⚠' !in c
    ensures '⚠' !in ScoreLine(c)
  {
    assert '⚠' !in "📊 **Confidence " && '⚠' !in "Score:** ";
  }

  lemma LevelLineLacksWarningSign(t: Tier)
    ensures '⚠' !in LevelLine(Description(t))
  {
    assert '⚠' !in "💡 **Confidence " && '⚠' !in "Level:** ";
    match t
    case High => assert '⚠' !in "very confident";
    case Medium => assert '⚠' !in "moderately " && '⚠' !in "confident";
    case Low => assert '⚠' !in "not very " && '⚠' !in "confident";
  }

  /** A low score adds the advice block to the explanation. */
  lemma ExplanationAdviceWhenLow(p: Prediction)
    requires GetConfidenceLevel(p.confidence.value).level == Low
    ensures Contains(PredictionExplanation(p), LowConfidenceAdvice)
  {
    var level := GetConfidenceLevel(p.confidence.value);
    var d, c := p.predictedClass, p.confidence.text;
    var x4 := ExplanationOpening + DiseaseLine(d) + ScoreLine(c) + LevelLine(level.description)
      + (ConfidenceExplanation(level.level, c, d) + "\n\n");
    ContainsEnd(x4, LowConfidenceAdvice);
    ContainsLeft(x4 + AdviceBlock(level.level), ExplanationClosing, LowConfidenceAdvice);
  }

  /** A high or medium score leaves the advice block out (the quoted name and score do not carry its warning sign). */
  lemma ExplanationNoAdviceOtherwise(p: Prediction)
    requires GetConfidenceLevel(p.confidence.value).level != Low
    requires '⚠' !in p.predictedClass && '⚠' !in p.confidence.text
    ensures !Contains(PredictionExplanation(p), LowConfidenceAdvice)
  {
    var level := GetConfidenceLevel(p.confidence.value);
    var d, c := p.predictedClass, p.confidence.text;
    OpeningLacksWarningSign();
    ClosingLacksWarningSign();
    SentenceLacksWarningSign(level.level, c, d);
    DiseaseLineLacksWarningSign(d);
    ScoreLineLacksWarningSign(c);
    LevelLineLacksWarningSign(level.level);
    assert AdviceBlock(level.level) == "";
    assert '⚠' !in PredictionExplanation(p);
    AdviceHasWarningSign();
    MissingChar(PredictionExplanation(p), LowConfidenceAdvice, '⚠');
  }

  /**
   * The low-confidence advice appears in the explanation exactly when the
   * tier is low (for a disease name and a score text that do not themselves
   * carry the advice's warning sign).
   */
  lemma ExplanationAdviceIffLow(p: Prediction)
    requires '⚠' !in p.predictedClass && '⚠' !in p.confidence.text
    ensures Contains(PredictionExplanation(p), LowConfidenceAdvice) <==> GetConfidenceLevel(p.confidence.value).level == Low
  {
    if GetConfidenceLevel(p.confidence.value).level == Low {
      ExplanationAdviceWhenLow(p);
    } else {
      ExplanationNoAdviceOtherwise(p);
    }
  }

  // ===========================================================================
  // answerCommonQuestion: the inner keyword router
  // ===========================================================================

  datatype Topic = Meaning | Accuracy | Trust | Improvement | Disclaimer

  const MeaningWords: seq<string> := ["mean", "indicate", "what is"]
  const AccuracyWords: seq<string> := ["accurate", "accuracy", "reliable"]
  const TrustWords: seq<string> := ["trust", "believe", "confident"]
  const ImprovementWords: seq<string> := ["better", "improve", "guidance"]
  const DisclaimerWords: seq<string> := ["disclaimer", "safe", "professional"]

  /** The topic `answerCommonQuestion` picks: its five tests, in source order, on the lower-cased question. */
  function QuestionTopic(question: string): Option<Topic>
  {
    TopicOf(Lower(question))
  }

  /** The five tests of `answerCommonQuestion` on a lower-cased question q; the first that matches wins. */
  function TopicOf(q: string): Option<Topic>
  {
    if ContainsAny(q, MeaningWords) then Some(Meaning)
    else if ContainsAny(q, AccuracyWords) then Some(Accuracy)
    else if ContainsAny(q, TrustWords) then Some(Trust)
    else if ContainsAny(q, ImprovementWords) then Some(Improvement)
    else if ContainsAny(q, DisclaimerWords) then Some(Disclaimer)
    else None
  }

  /** The canned answer of each topic. */
  function TopicAnswer(t: Topic, p: Prediction): string
  {
    match t
    case Meaning => MeaningAnswer(p)
    case Accuracy => AccuracyAnswer()
    case Trust => TrustAnswer
    case Improvement => ImprovementAnswer
    case Disclaimer => DisclaimerAnswer
  }

  /** `answerCommonQuestion`'s return value; None is its `null`. */
  function CommonAnswer(question: string, p: Prediction): (r: Option<string>)
    ensures r.None? <==> forall i | 0 <= i < |QuestionRules| :: !ContainsAny(Lower(question), QuestionRules[i].keywords)
  {
    QuestionTopicIsFirstMatch(Lower(question));
    FirstMatchSpec(QuestionRules, Lower(question));
    match QuestionTopic(question)
    case Some(t) => Some(TopicAnswer(t, p))
    case None => None
  }

  /** A routing rule: any of its keywords selects its outcome. */
  datatype Rule<T> = Rule(keywords: seq<string>, outcome: T)

  /** The inner router written as an ordered table of rules. */
  const QuestionRules: seq<Rule<Topic>> := [
    Rule(MeaningWords, Meaning),
    Rule(AccuracyWords, Accuracy),
    Rule(TrustWords, Trust),
    Rule(ImprovementWords, Improvement),
    Rule(DisclaimerWords, Disclaimer)
  ]

  /** The outcome of the first rule that has a keyword in s. */
  function FirstMatch<T>(rules: seq<Rule<T>>, s: string): Option<T>
  {
    if rules == [] then None
    else if ContainsAny(s, rules[0].keywords) then Some(rules[0].outcome)
    else FirstMatch(rules[1..], s)
  }

  /** FirstMatch finds nothing exactly when no rule matches, and otherwise the outcome of a matching rule with no match before it. */
  lemma {:induction false} FirstMatchSpec<T>(rules: seq<Rule<T>>, s: string)
    ensures FirstMatch(rules, s).None? <==> forall i | 0 <= i < |rules| :: !ContainsAny(s, rules[i].keywords)
    ensures FirstMatch(rules, s).Some? ==> exists i | 0 <= i < |rules| ::
      && rules[i].outcome == FirstMatch(rules, s).value
      && ContainsAny(s, rules[i].keywords)
      && forall j | 0 <= j < i :: !ContainsAny(s, rules[j].keywords)
  {
    if rules != [] && !ContainsAny(s, rules[0].keywords) {
      FirstMatchSpec(rules[1..], s);
      assert forall i | 1 <= i < |rules| :: rules[i] == rules[1..][i - 1];
      if FirstMatch(rules, s).Some? {
        var i :| 0 <= i < |rules[1..]| && rules[1..][i].outcome == FirstMatch(rules, s).value
          && ContainsAny(s, rules[1..][i].keywords)
          && forall j | 0 <= j < i :: !ContainsAny(s, rules[1..][j].keywords);
        assert rules[i + 1].outcome == FirstMatch(rules, s).value;
        assert forall j | 0 <= j < i + 1 :: !ContainsAny(s, rules[j].keywords) by {
          forall j | 0 <= j < i + 1 ensures !ContainsAny(s, rules[j].keywords) {
            if j > 0 { assert rules[j] == rules[1..][j - 1]; }
          }
        }
      }
    }
  }

  /** The chain of tests in `answerCommonQuestion` is the first-match reading of the rule table. */
  lemma QuestionTopicIsFirstMatch(q: string)
    ensures TopicOf(q) == FirstMatch(QuestionRules, q)
  {
    var r := QuestionRules;
    assert r[4..][1..] == [];
    assert FirstMatch(r[4..], q) == (if ContainsAny(q, DisclaimerWords) then Some(Disclaimer) else None);
    assert r[3..][1..] == r[4..];
    assert FirstMatch(r[3..], q) == (if ContainsAny(q, ImprovementWords) then Some(Improvement) else FirstMatch(r[4..], q));
    assert r[2..][1..] == r[3..];
    assert FirstMatch(r[2..], q) == (if ContainsAny(q, TrustWords) then Some(Trust) else FirstMatch(r[3..], q));
    assert r[1..][1..] == r[2..];
    assert FirstMatch(r[1..], q) == (if ContainsAny(q, AccuracyWords) then Some(Accuracy) else FirstMatch(r[2..], q));
  }

  /** A question that names a keyword of rule i, and no keyword of an earlier rule, gets rule i's topic. */
  lemma QuestionTopicOfKeyword(question: string, i: nat, k: nat)
    requires i < |QuestionRules| && k < |QuestionRules[i].keywords|
    requires Contains(Lower(question), QuestionRules[i].keywords[k])
    requires forall j | 0 <= j < i :: !ContainsAny(Lower(question), QuestionRules[j].keywords)
    ensures QuestionTopic(question) == Some(QuestionRules[i].outcome)
  {
    var q := Lower(question);
    QuestionTopicIsFirstMatch(q);
    FirstMatchSpec(QuestionRules, q);
    assert ContainsAny(q, QuestionRules[i].keywords);
    var r := FirstMatch(QuestionRules, q);
    var m :| 0 <= m < |QuestionRules| && QuestionRules[m].outcome == r.value && ContainsAny(q, QuestionRules[m].keywords)
      && forall j | 0 <= j < m :: !ContainsAny(q, QuestionRules[j].keywords);
    assert m == i;
  }

  // ===========================================================================
  // getDiseaseGuidance, getConfidenceBasedRecommendation
  // ===========================================================================

  const ConsultProfessional := "Please consult a healthcare professional."

  /** `getDiseaseGuidance`: the table entry, or a fallback sentence that names the disease. */
  function GetDiseaseGuidance(disease: string): (g: string)
    ensures disease in DiseaseGuidance ==> g == DiseaseGuidance[disease]
    ensures disease !in DiseaseGuidance ==> Contains(g, disease) && Contains(g, ConsultProfessional)
  {
    if disease in DiseaseGuidance then DiseaseGuidance[disease]
    else
      var prefix := "I don't have specific guidance for ";
      ContainsStart(disease, ". " + ConsultProfessional);
      ContainsRight(prefix, disease + (". " + ConsultProfessional), disease);
      ContainsEnd(". ", ConsultProfessional);
      ContainsRight(disease, ". " + ConsultProfessional, ConsultProfessional);
      ContainsRight(prefix, disease + (". " + ConsultProfessional), ConsultProfessional);
      prefix + (disease + (". " + ConsultProfessional))
  }

  /** The guidance table covers exactly the four classes of the classifier, and every entry is non-empty. */
  lemma GuidanceTable()
    ensures DiseaseGuidance.Keys == {"Measles", "Monkeypox", "Chickenpox", "Normal"}
    ensures forall d | d in DiseaseGuidance :: |DiseaseGuidance[d]| > 0
  {
  }

  const HealthcareProfessional := "healthcare professional"

  const HighAdviceTail := "%), the prediction is likely reliable. However, always consult a "
  const MediumAdviceTail := "%). While the prediction is reasonably reliable, I recommend consulting a "
  const LowAdviceTail := "%). Please don't rely solely on this result. Consulting a "

  /** `getConfidenceBasedRecommendation`. */
  function ConfidenceBasedRecommendation(confidence: Score, disease: string): string
  {
    match GetConfidenceLevel(confidence.value).level
    case High =>
      "Since the model is very confident about " + (disease + (" (" + (confidence.text
      + (HighAdviceTail + (HealthcareProfessional + " for final diagnosis.")))))
    case Medium =>
      "The model has moderate confidence about " + (disease + (" (" + (confidence.text
      + (MediumAdviceTail + (HealthcareProfessional + " to confirm.")))))
    case Low =>
      "The model has low confidence about this prediction (" + (confidence.text
      + (LowAdviceTail + (HealthcareProfessional + " is strongly recommended.")))
  }

  /** The tail shared by the high and medium recommendations contains the score and the professional. */
  lemma RecommendationTail(c: string, tail: string, end: string)
    ensures Contains(" (" + (c + (tail + (HealthcareProfessional + end))), c)
    ensures Contains(" (" + (c + (tail + (HealthcareProfessional + end))), HealthcareProfessional)
  {
    ContainsStart(c, tail + (HealthcareProfessional + end));
    ContainsRight(" (", c + (tail + (HealthcareProfessional + end)), c);
    ContainsStart(HealthcareProfessional, end);
    ContainsRight(tail, HealthcareProfessional + end, HealthcareProfessional);
    ContainsRight(c, tail + (HealthcareProfessional + end), HealthcareProfessional);
    ContainsRight(" (", c + (tail + (HealthcareProfessional + end)), HealthcareProfessional);
  }

  /** Every recommendation quotes the score and sends the user to a professional; the high and medium ones also name the disease. */
  lemma RecommendationMentions(confidence: Score, disease: string)
    ensures Contains(ConfidenceBasedRecommendation(confidence, disease), confidence.text)
    ensures GetConfidenceLevel(confidence.value).level != Low ==> Contains(ConfidenceBasedRecommendation(confidence, disease), disease)
    ensures Contains(ConfidenceBasedRecommendation(confidence, disease), HealthcareProfessional)
  {
    var c, d := confidence.text, disease;
    match GetConfidenceLevel(confidence.value).level
    case High =>
      var a := "Since the model is very confident about ";
      var rest := " (" + (c + (HighAdviceTail + (HealthcareProfessional + " for final diagnosis.")));
      RecommendationTail(c, HighAdviceTail, " for final diagnosis.");
      ContainsStart(d, rest);
      ContainsRight(d, rest, c);
      ContainsRight(d, rest, HealthcareProfessional);
      ContainsRight(a, d + rest, c);
      ContainsRight(a, d + rest, d);
      ContainsRight(a, d + rest, HealthcareProfessional);
    case Medium =>
      var a := "The model has moderate confidence about ";
      var rest := " (" + (c + (MediumAdviceTail + (HealthcareProfessional + " to confirm.")));
      RecommendationTail(c, MediumAdviceTail, " to confirm.");
      ContainsStart(d, rest);
      ContainsRight(d, rest, c);
      ContainsRight(d, rest, HealthcareProfessional);
      ContainsRight(a, d + rest, c);
      ContainsRight(a, d + rest, d);
      ContainsRight(a, d + rest, HealthcareProfessional);
    case Low =>
      var a := "The model has low confidence about this prediction (";
      var end := " is strongly recommended.";
      ContainsStart(c, LowAdviceTail + (HealthcareProfessional + end));
      ContainsRight(a, c + (LowAdviceTail + (HealthcareProfessional + end)), c);
      ContainsStart(HealthcareProfessional, end);
      ContainsRight(LowAdviceTail, HealthcareProfessional + end, HealthcareProfessional);
      ContainsRight(c, LowAdviceTail + (HealthcareProfessional + end), HealthcareProfessional);
      ContainsRight(a, c + (LowAdviceTail + (HealthcareProfessional + end)), HealthcareProfessional);
  }

  // ===========================================================================
  // processChatInput: the outer keyword router
  // ===========================================================================

  datatype Route = AskMeaning | AskAccuracy | AskTrust | AskGuidance | AskDisease | AskDisclaimer | Unmatched

  /** `userMessage.toLowerCase().trim()` */
  function Normalize(message: string): string
  {
    Trim(Lower(message))
  }

  /** The rule of `processChatInput` that fires on a normalized message: its six tests in source order. */
  function RouteOf(u: string): Route
  {
    if Contains(u, "what") && (Contains(u, "mean") || Contains(u, "predict")) then AskMeaning
    else if Contains(u, "how") && (Contains(u, "accurate") || Contains(u, "reliable")) then AskAccuracy
    else if Contains(u, "can") && (Contains(u, "trust") || Contains(u, "believe")) then AskTrust
    else if Contains(u, "guidance") || (Contains(u, "how") && Contains(u, "better")) then AskGuidance
    else if Contains(u, "disease") || Contains(u, "condition") then AskDisease
    else if Contains(u, "disclaimer") || Contains(u, "professional") || Contains(u, "medical") then AskDisclaimer
    else Unmatched
  }

  /** The rules that hand the message on to `answerCommonQuestion`. */
  predicate Delegates(r: Route)
  {
    r != AskDisease && r != Unmatched
  }

  /** `generateDefaultResponse` with the random pick made by the caller (`Math.floor(Math.random() * 3)`). */
  function DefaultResponse(p: Prediction, pick: nat): string
    requires pick < 3
  {
    [
      "I\'m here to help! I can explain " +
      "the prediction of " +
      p.predictedClass +
      ", discuss accuracy, provide " +
      "guidance for better images, or " +
      "share important disclaimers. What " +
      "would you like to know?",
      "That\'s a great question! Here\'s " +
      "what I can help with:\n" +
      "✓ Explain what " +
      p.predictedClass +
      " means\n" +
      "✓ Discuss prediction accuracy and " +
      "reliability\n" +
      "✓ Provide tips for better " +
      "predictions\n" +
      "✓ Share important medical " +
      "disclaimers\n" +
      "\n" +
      "What interests you most?",
      "I understand! While I\'m " +
      "specialized in explaining this " +
      "prediction, I\'d be happy to help " +
      "with any of these:\n" +
      "• Meaning of the results\n" +
      "• Prediction accuracy\n" +
      "• How to get better predictions\n" +
      "• Important disclaimers\n" +
      "\n" +
      "Which would be most helpful?"
    ][pick]
  }

  /** What `processChatInput` answers with, before the text is produced. */
  datatype Reply =
    | TopicReply(topic: Topic)   // the canned answer of a topic
    | ExplanationReply           // the full explanation of the prediction
    | GuidanceReply              // the guidance for the predicted class
    | DefaultReply(pick: nat)    // one of the three default responses
    | NoReply                    // `null`

  /** The decision `processChatInput` takes on an already normalized message. */
  function ReplyOf(u: string, defaultPick: nat): (r: Reply)
    ensures r.DefaultReply? ==> r.pick == defaultPick
  {
    match RouteOf(u)
    case AskMeaning =>
      (match QuestionTopic(u) case Some(t) => TopicReply(t) case None => ExplanationReply)
    case AskDisease => GuidanceReply
    case Unmatched => DefaultReply(defaultPick)
    case _ =>
      (match QuestionTopic(u) case Some(t) => TopicReply(t) case None => NoReply)
  }

  /** The text of a reply; None is `null`. */
  function Render(r: Reply, p: Prediction): Option<string>
    requires r.DefaultReply? ==> r.pick < 3
  {
    match r
    case TopicReply(t) => Some(TopicAnswer(t, p))
    case ExplanationReply => Some(PredictionExplanation(p))
    case GuidanceReply => Some(GetDiseaseGuidance(p.predictedClass))
    case DefaultReply(k) => Some(DefaultResponse(p, k))
    case NoReply => None
  }

  /** `processChatInput`: the reply, or None where the source returns `null`. */
  function ChatReply(message: string, p: Prediction, defaultPick: nat): (r: Option<string>)
    requires defaultPick < 3
    ensures var u := Normalize(message);
      r.None? <==> RouteOf(u) == AskDisclaimer && TopicOf(u).None?
  {
    ReplyIsNullIff(message, defaultPick);
    RenderNullIff(ReplyOf(Normalize(message), defaultPick), p);
    Render(ReplyOf(Normalize(message), defaultPick), p)
  }

  /** Only the missing reply renders as `null`. */
  lemma RenderNullIff(r: Reply, p: Prediction)
    requires r.DefaultReply? ==> r.pick < 3
    ensures Render(r, p).None? <==> r == NoReply
  {
    if r != NoReply {
      assert Render(r, p).Some?;
    }
  }

  /** Rule 1 answers with what `answerCommonQuestion` returns, or else with the full explanation. */
  lemma MeaningRouteReply(u: string, p: Prediction, k: nat)
    requires k < 3 && RouteOf(u) == AskMeaning
    ensures Render(ReplyOf(u, k), p) == Some(CommonAnswer(u, p).GetOr(PredictionExplanation(p)))
  {
  }

  /** Rules 2, 3, 4 and 6 answer with exactly what `answerCommonQuestion` returns. */
  lemma DelegatedRouteReply(u: string, p: Prediction, k: nat)
    requires k < 3 && Delegates(RouteOf(u)) && RouteOf(u) != AskMeaning
    ensures Render(ReplyOf(u, k), p) == CommonAnswer(u, p)
  {
    match QuestionTopic(u)
    case Some(t) =>
      assert ReplyOf(u, k) == TopicReply(t);
    case None =>
      assert ReplyOf(u, k) == NoReply;
  }

  /** Rule 5 answers with the guidance for the predicted class. */
  lemma DiseaseRouteReply(u: string, p: Prediction, k: nat)
    requires k < 3 && RouteOf(u) == AskDisease
    ensures Render(ReplyOf(u, k), p) == Some(GetDiseaseGuidance(p.predictedClass))
  {
    assert ReplyOf(u, k) == GuidanceReply;
  }

  /** A message no rule matches gets the picked default response. */
  lemma UnmatchedRouteReply(u: string, p: Prediction, k: nat)
    requires k < 3 && RouteOf(u) == Unmatched
    ensures Render(ReplyOf(u, k), p) == Some(DefaultResponse(p, k))
  {
    UnmatchedDecision(u, k);
  }

  lemma UnmatchedDecision(u: string, k: nat)
    requires RouteOf(u) == Unmatched
    ensures ReplyOf(u, k) == DefaultReply(k)
  {
  }

  /** The accuracy flag is raised when the inner router is reached and picks accuracy. */
  predicate SetsAccuracyFlag(message: string)
  {
    var u := Normalize(message);
    Delegates(RouteOf(u)) && QuestionTopic(u) == Some(Accuracy)
  }

  /** The trust flag is raised when the inner router is reached and picks trust. */
  predicate SetsTrustFlag(message: string)
  {
    var u := Normalize(message);
    Delegates(RouteOf(u)) && QuestionTopic(u) == Some(Trust)
  }

  /** A normalized message is already lower-case. */
  lemma NormalizedIsLower(message: string)
    ensures Lower(Normalize(message)) == Normalize(message)
  {
    TrimLower(Lower(message));
    LowerIdempotent(message);
    LowerIdempotent(Trim(Lower(message)));
  }

  /** Normalizing ignores case and surrounding whitespace. */
  lemma NormalizeIgnoresCaseAndPadding(message: string)
    ensures Normalize(Lower(message)) == Normalize(message)
    ensures Normalize(Trim(message)) == Normalize(message)
  {
    LowerIdempotent(message);
    TrimLower(message);
    TrimIdempotent(Lower(message));
  }

  /** Case and surrounding whitespace do not change the reply. */
  lemma ReplyIgnoresCaseAndPadding(message: string, p: Prediction, k: nat)
    requires k < 3
    ensures ChatReply(Lower(message), p, k) == ChatReply(message, p, k)
    ensures ChatReply(Trim(message), p, k) == ChatReply(message, p, k)
  {
    NormalizeIgnoresCaseAndPadding(message);
  }

  /** Rules 2, 3 and 4 fire only on words the inner router also knows, so the inner router finds a topic. */
  lemma DelegatedRulesFindTopic(u: string)
    ensures RouteOf(u) in {AskAccuracy, AskTrust, AskGuidance} ==> TopicOf(u).Some?
  {
    if RouteOf(u) == AskAccuracy {
      assert Contains(u, AccuracyWords[0]) || Contains(u, AccuracyWords[2]);
    } else if RouteOf(u) == AskTrust {
      assert Contains(u, TrustWords[0]) || Contains(u, TrustWords[1]);
    } else if RouteOf(u) == AskGuidance {
      assert Contains(u, ImprovementWords[2]) || Contains(u, ImprovementWords[0]);
    }
  }

  /** When rule 6 fires and the inner router finds nothing, the message says "medical" but neither "disclaimer" nor "professional". */
  lemma UnansweredDisclaimerRoute(u: string)
    requires RouteOf(u) == AskDisclaimer && TopicOf(u).None?
    ensures Contains(u, "medical") && !Contains(u, "disclaimer") && !Contains(u, "professional")
  {
    assert !ContainsAny(u, DisclaimerWords);
    assert !Contains(u, DisclaimerWords[0]) && !Contains(u, DisclaimerWords[2]);
  }

  /**
   * `processChatInput` returns `null` exactly when rule 6 fires and the inner
   * router finds nothing, which needs "medical" in the message and neither
   * "disclaimer" nor "professional" (those are inner keywords too).
   */
  lemma ReplyIsNullIff(message: string, k: nat)
    ensures var u := Normalize(message);
      ReplyOf(u, k) == NoReply <==> RouteOf(u) == AskDisclaimer && TopicOf(u).None?
    ensures var u := Normalize(message);
      ReplyOf(u, k) == NoReply ==> Contains(u, "medical") && !Contains(u, "disclaimer") && !Contains(u, "professional")
  {
    var u := Normalize(message);
    NormalizedIsLower(message);
    DelegatedRulesFindTopic(u);
    if RouteOf(u) == AskDisclaimer && TopicOf(u).None? {
      UnansweredDisclaimerRoute(u);
    }
  }

  /** The two flags are never raised by the same message, and raising one means that topic's answer is the reply. */
  lemma FlagsFollowTheirAnswers(message: string, k: nat)
    ensures !(SetsAccuracyFlag(message) && SetsTrustFlag(message))
    ensures SetsAccuracyFlag(message) ==> ReplyOf(Normalize(message), k) == TopicReply(Accuracy)
    ensures SetsTrustFlag(message) ==> ReplyOf(Normalize(message), k) == TopicReply(Trust)
  {
  }

  // ---------------------------------------------------------------------------
  // A message that only rule 6 matches gets `null`
  // ---------------------------------------------------------------------------

  /**
   * A normalized message such as "medical": lower-case, holding "medical", and
   * lacking the letters w, h, n, g, s, o, p, u, r, t and b, so that no other
   * keyword of either router can occur in it.
   */
  predicate OnlyMedical(u: string)
  {
    && Lower(u) == u && Contains(u, "medical")
    && 'w' !in u && 'h' !in u && 'n' !in u && 'g' !in u && 's' !in u && 'o' !in u && 'p' !in u
    && 'u' !in u && 'r' !in u && 't' !in u && 'b' !in u
  }

  /** The message "medical" passes through normalization unchanged. */
  lemma MedicalIsNormal(u: string)
    requires u == "medical"
    ensures Lower(u) == u && Normalize(u) == u && Contains(u, "medical")
  {
    LowerOfLowercase(u);
    TrimUnpadded(u);
    ContainsStart(u, "");
    assert u + "" == u;
  }

  /** The letters "medical" lacks. */
  lemma MedicalLetters(u: string)
    requires u == "medical"
    ensures 'w' !in u && 'h' !in u && 'n' !in u && 'g' !in u && 's' !in u && 'o' !in u && 'p' !in u
    ensures 'u' !in u && 'r' !in u && 't' !in u && 'b' !in u
  {
  }

  /** The message "medical", once normalized, is one. */
  lemma MedicalIsOnlyMedical(u: string)
    requires u == "medical"
    ensures OnlyMedical(Normalize(u))
  {
    MedicalIsNormal(u);
    MedicalLetters(u);
  }

  /**
   * Rule 6 is the first rule of `processChatInput` that fires on a message
   * holding "medical" and none of the letters w, h, n, g, s, o and p (each
   * earlier keyword has one of them).
   */
  lemma MedicalOnlyRoute(u: string)
    requires Contains(u, "medical")
    requires 'w' !in u && 'h' !in u && 'n' !in u && 'g' !in u && 's' !in u && 'o' !in u && 'p' !in u
    ensures RouteOf(u) == AskDisclaimer
  {
    MissingChar(u, "what", 'w');
    MissingChar(u, "how", 'h');
    MissingChar(u, "can", 'n');
    MissingChar(u, "guidance", 'g');
    MissingChar(u, "disease", 's');
    MissingChar(u, "condition", 'o');
    MissingChar(u, "disclaimer", 's');
    MissingChar(u, "professional", 'p');
  }

  /** A message lacking the letters n, w, u, r, t, b, o, p, g and s holds no keyword of `answerCommonQuestion`. */
  lemma NoKeywordTopic(u: string)
    requires 'n' !in u && 'w' !in u && 'u' !in u && 'r' !in u && 't' !in u
    requires 'b' !in u && 'o' !in u && 'p' !in u && 'g' !in u && 's' !in u
    ensures TopicOf(u).None?
  {
    MissingFromAll(u, MeaningWords, "nnw");
    MissingFromAll(u, AccuracyWords, "uur");
    MissingFromAll(u, TrustWords, "tbo");
    MissingFromAll(u, ImprovementWords, "bpg");
    MissingFromAll(u, DisclaimerWords, "ssp");
  }

  /**
   * A lower-case message holding "medical" and none of the letters w, h, n,
   * g, s, o, p, u, r, t and b reaches rule 6, and the inner router finds
   * nothing: `processChatInput` returns `null`.
   */
  lemma UnansweredMessage(u: string, k: nat)
    requires Lower(u) == u && Contains(u, "medical")
    requires 'w' !in u && 'h' !in u && 'n' !in u && 'g' !in u && 's' !in u && 'o' !in u && 'p' !in u
    requires 'u' !in u && 'r' !in u && 't' !in u && 'b' !in u
    ensures ReplyOf(u, k) == NoReply
  {
    MedicalOnlyRoute(u);
    NoKeywordTopic(u);
  }

  /** As written, `processChatInput` returns `null` for "medical" and every message like it. */
  lemma OnlyMedicalGetsNoReply(message: string, p: Prediction, k: nat)
    requires k < 3 && OnlyMedical(Normalize(message))
    ensures ChatReply(message, p, k).None?
  {
    UnansweredMessage(Normalize(message), k);
  }

  /**
   * The router as evidently intended: a message that rule 6 (the disclaimer
   * rule) matches is answered with the disclaimer even when none of the
   * inner keywords occur in it.
   */
  function FixedReplyOf(u: string, defaultPick: nat): (r: Reply)
    ensures ReplyOf(u, defaultPick) != NoReply ==> r == ReplyOf(u, defaultPick)
  {
    if RouteOf(u) == AskDisclaimer && QuestionTopic(u).None? then TopicReply(Disclaimer)
    else ReplyOf(u, defaultPick)
  }

  /** The fixed router answers every lower-case message. */
  lemma FixedReplyAnswers(u: string, k: nat)
    requires Lower(u) == u
    ensures FixedReplyOf(u, k) != NoReply
  {
    DelegatedRulesFindTopic(u);
  }

  /** `processChatInput` as evidently intended. */
  function FixedChatReply(message: string, p: Prediction, defaultPick: nat): Option<string>
    requires defaultPick < 3
  {
    Render(FixedReplyOf(Normalize(message), defaultPick), p)
  }

  /** With the fix, every message gets a reply. */
  lemma FixedChatReplyAnswers(message: string, p: Prediction, k: nat)
    requires k < 3
    ensures FixedChatReply(message, p, k).Some?
  {
    NormalizedIsLower(message);
    FixedReplyAnswers(Normalize(message), k);
    RenderNullIff(FixedReplyOf(Normalize(message), k), p);
  }

  /** The fix changes only the replies that were `null`. */
  lemma FixedReplyKeepsAnswers(message: string, p: Prediction, k: nat)
    requires k < 3 && ChatReply(message, p, k).Some?
    ensures FixedChatReply(message, p, k) == ChatReply(message, p, k)
  {
    RenderNullIff(ReplyOf(Normalize(message), k), p);
  }

  /** With the fix, a message that UnansweredMessage covers gets the disclaimer. */
  lemma FixedUnansweredGetsDisclaimer(u: string, k: nat)
    requires Lower(u) == u && Contains(u, "medical")
    requires 'w' !in u && 'h' !in u && 'n' !in u && 'g' !in u && 's' !in u && 'o' !in u && 'p' !in u
    requires 'u' !in u && 'r' !in u && 't' !in u && 'b' !in u
    ensures FixedReplyOf(u, k) == TopicReply(Disclaimer)
  {
    MedicalOnlyRoute(u);
    NoKeywordTopic(u);
    assert QuestionTopic(u).None?;
  }

  /** With the fix, "medical" and every message like it are answered with the disclaimer. */
  lemma OnlyMedicalGetsDisclaimer(message: string, p: Prediction, k: nat)
    requires k < 3 && OnlyMedical(Normalize(message))
    ensures FixedChatReply(message, p, k) == Some(DisclaimerAnswer)
  {
    FixedUnansweredGetsDisclaimer(Normalize(message), k);
  }

  // ===========================================================================
  // Greetings and follow-ups, with the random pick made by the caller
  // ===========================================================================

  /** `getGreeting` */
  function Greeting(pick: nat): (g: string)
    requires pick < |Greetings|
    ensures g in Greetings
  {
    Greetings[pick]
  }

  /** `getFollowUpPrompt` */
  function FollowUpPrompt(pick: nat): (f: string)
    requires pick < |FollowUpPrompts|
    ensures f in FollowUpPrompts
  {
    FollowUpPrompts[pick]
  }

  // ===========================================================================
  // formatMessage: bold spans to strong elements, newlines to br elements
  // ===========================================================================

  predicate IsLineTerminator(c: char)
  {
    c == '\n' || c == '\r' || c == '\U{2028}' || c == '\U{2029}'
  }

  /** A closing pair of asterisks starts at index i of t. */
  predicate PairAt(t: string, i: nat)
  {
    i + 1 < |t| && t[i] == '*' && t[i + 1] == '*'
  }

  /** A line terminator comes before index i of t. */
  predicate BrokenBefore(t: string, i: nat)
  {
    exists j | 0 <= j < i && j < |t| :: IsLineTerminator(t[j])
  }

  /**
   * Where the lazy group `(.*?)` of the bold pattern ends in t, the text
   * after an opening double asterisk: at the first closing pair, provided
   * no line terminator comes before it.
   */
  function BoldClose(t: string): (r: Option<nat>)
    ensures r.Some? ==> r.value + 2 <= |t|
    decreases |t|
  {
    if |t| < 2 then None
    else if t[0] == '*' && t[1] == '*' then Some(0)
    else if IsLineTerminator(t[0]) then None
    else
      match BoldClose(t[1..])
      case Some(j) => Some(j + 1)
      case None => None
  }

  /**
   * BoldClose finds the first closing pair when no line terminator comes
   * before it, and nothing when every closing pair has a line terminator before it.
   */
  lemma {:induction false} BoldCloseSpec(t: string)
    ensures BoldClose(t).Some? ==> PairAt(t, BoldClose(t).value) && !BrokenBefore(t, BoldClose(t).value)
    ensures BoldClose(t).Some? ==> forall i: nat | i < BoldClose(t).value :: !PairAt(t, i)
    ensures BoldClose(t).None? ==> forall i: nat | PairAt(t, i) :: BrokenBefore(t, i)
    decreases |t|
  {
    if |t| >= 2 && !(t[0] == '*' && t[1] == '*') {
      var u := t[1..];
      assert forall i: nat | i + 1 < |t| :: PairAt(t, i + 1) == PairAt(u, i);
      assert forall i: nat | 0 < i :: BrokenBefore(u, i - 1) ==> BrokenBefore(t, i) by {
        forall i: nat | 0 < i && BrokenBefore(u, i - 1) ensures BrokenBefore(t, i) {
          var j :| 0 <= j < i - 1 && j < |u| && IsLineTerminator(u[j]);
          assert t[j + 1] == u[j];
        }
      }
      if IsLineTerminator(t[0]) {
        assert forall i: nat | 0 < i && i < |t| :: BrokenBefore(t, i) by {
          forall i: nat | 0 < i && i < |t| ensures BrokenBefore(t, i) {
            assert IsLineTerminator(t[0]);
          }
        }
      } else {
        BoldCloseSpec(u);
        match BoldClose(u)
        case Some(j) =>
          assert BoldClose(t) == Some(j + 1);
          assert PairAt(u, j);
          assert t[j + 1] == u[j] && t[j + 2] == u[j + 1];
          assert PairAt(t, j + 1);
          forall i: nat | i < j + 1 ensures !PairAt(t, i) {
            if i > 0 {
              assert !PairAt(u, i - 1);
              assert PairAt(t, i) == PairAt(u, i - 1);
            }
          }
          forall m | 0 <= m < j + 1 && m < |t| ensures !IsLineTerminator(t[m]) {
            if m > 0 {
              assert t[m] == u[m - 1];
              assert !BrokenBefore(u, j);
            }
          }
        case None =>
      }
    }
  }

  /** Every bold span (text between two double asterisks on one line) becomes a strong element. */
  function Bold(s: string): string
    decreases |s|
  {
    if |s| >= 2 && s[0] == '*' && s[1] == '*' && BoldClose(s[2..]).Some? then
      var j := BoldClose(s[2..]).value;
      "<strong>" + s[2..2 + j] + "</strong>" + Bold(s[4 + j..])
    else if s == [] then []
    else [s[0]] + Bold(s[1..])
  }

  /** Every newline becomes a br element. */
  function NewlinesToBreaks(s: string): (r: string)
    ensures '\n' !in r
  {
    if s == [] then []
    else (if s[0] == '\n' then "<br>" else [s[0]]) + NewlinesToBreaks(s[1..])
  }

  /** `formatMessage` */
  function FormatMessage(message: string): (html: string)
    ensures '\n' !in html
  {
    NewlinesToBreaks(Bold(message))
  }

  /** The inverse of NewlinesToBreaks on texts that have no `<` of their own. */
  function BreaksToNewlines(s: string): string
  {
    if s == [] then []
    else if |s| >= 4 && s[..4] == "<br>" then "\n" + BreaksToNewlines(s[4..])
    else [s[0]] + BreaksToNewlines(s[1..])
  }

  lemma {:induction false} BreaksRoundTrip(s: string)
    requires '<' !in s
    ensures BreaksToNewlines(NewlinesToBreaks(s)) == s
  {
    if s != [] {
      var rest := NewlinesToBreaks(s[1..]);
      BreaksRoundTrip(s[1..]);
      if s[0] == '\n' {
        BreakStep(rest);
      } else {
        CharStep(s[0], rest);
      }
      assert s == [s[0]] + s[1..];
    }
  }

  /** A br element turns back into a newline. */
  lemma BreakStep(rest: string)
    ensures BreaksToNewlines("<br>" + rest) == "\n" + BreaksToNewlines(rest)
  {
    var t := "<br>" + rest;
    assert t[..4] == "<br>";
    assert t[4..] == rest;
  }

  /** Any character but `<` is copied back unchanged. */
  lemma CharStep(c: char, rest: string)
    requires c != '<'
    ensures BreaksToNewlines([c] + rest) == [c] + BreaksToNewlines(rest)
  {
    var t := [c] + rest;
    assert t[0] == c;
    assert |t| >= 4 ==> t[..4][0] == c;
    assert t[1..] == rest;
  }

  /** Text without asterisks has nothing to embolden. */
  lemma {:induction false} BoldIdentity(s: string)
    requires '*' !in s
    ensures Bold(s) == s
    decreases |s|
  {
    if s != [] {
      BoldIdentity(s[1..]);
      assert s == [s[0]] + s[1..];
    }
  }

  lemma {:induction false} BoldCloseAfter(x: string, rest: string)
    requires '*' !in x && forall i | 0 <= i < |x| :: !IsLineTerminator(x[i])
    ensures BoldClose(x + "**" + rest) == Some(|x|)
    decreases |x|
  {
    var t := x + "**" + rest;
    if x == [] {
      assert t[0] == '*' && t[1] == '*';
    } else {
      assert t[0] == x[0];
      assert t[1..] == x[1..] + "**" + rest;
      BoldCloseAfter(x[1..], rest);
    }
  }

  /** `**x**` becomes `<strong>x</strong>` when x holds no asterisk and no line break. */
  lemma BoldPair(x: string, rest: string)
    requires '*' !in x && forall i | 0 <= i < |x| :: !IsLineTerminator(x[i])
    ensures Bold("**" + x + "**" + rest) == "<strong>" + x + "</strong>" + Bold(rest)
  {
    var s := "**" + x + "**" + rest;
    BoldCloseAfter(x, rest);
    assert s[2..] == x + "**" + rest;
    assert s[2..2 + |x|] == x;
    assert s[4 + |x|..] == rest;
  }
}
