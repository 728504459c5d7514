/** Answer generation of `generateAnswerGemini`: the generation models are
    tried in a fixed order, the first non-blank trimmed text wins, a server
    error (status 500 or above) stops the search, and otherwise the
    language's canned fallback answer is returned. What each model call
    does is a parameter: the i-th outcome is what the i-th model tried
    produced. */
module Advisor {
  import opened Wrappers
  import opened JsText

  const DefaultGenerationModel: string := "gemini-1.5-flash-latest"

  /** The generation models in the order they are tried. The first is
      `NEXT_PUBLIC_GEMINI_MODEL` when that is set and non-empty. */
  function ModelsToTry(configured: Option<string>): (r: seq<string>)
    ensures |r| == 5
    ensures r[0] == if configured.Some? && Truthy(configured.value) then configured.value else DefaultGenerationModel
  {
    var primary := if configured.Some? && Truthy(configured.value) then configured.value else DefaultGenerationModel;
    [primary, "gemini-2.5-flash", "gemini-2.0-flash-exp", "gemini-1.5-flash-latest", "gemini-1.5-flash-8b"]
  }

  /** What one call to a generation model did: it produced text, or it
      threw an error that may carry `status` or `response.status`. */
  datatype Outcome =
    | Generated(text: string)
    | Failed(status: Option<int>, responseStatus: Option<int>)

  /** `e?.status ?? e?.response?.status`. */
  function StatusOf(o: Outcome): Option<int>
    requires o.Failed?
  {
    if o.status.Some? then o.status else o.responseStatus
  }

  /** An error that ends the search: a status of 500 or above. A missing
      status, or status 0, lets the search go on. */
  predicate IsServerError(o: Outcome) {
    o.Failed? && StatusOf(o).Some? && StatusOf(o).value >= 500
  }

  /** What the loop does with one outcome. */
  datatype Step = Answer(text: string) | GiveUp | TryNext

  function Classify(o: Outcome): (s: Step)
    ensures s.Answer? <==> o.Generated? && !AllWhitespace(o.text)
    ensures s.Answer? ==> s.text == Trim(o.text) && |s.text| > 0
    ensures s.GiveUp? <==> IsServerError(o)
  {
    match o
    case Generated(text) =>
      TrimBlank(text);
      if Truthy(text) && Truthy(Trim(text)) then Answer(Trim(text)) else TryNext
    case Failed(_, _) =>
      if IsServerError(o) then GiveUp else TryNext
  }

  /** The end of the loop: the answer found, if any, and how many models
      were called. */
  datatype Run = Run(answer: Option<string>, attempts: nat)

  /** The loop over the outcomes in order. Every outcome before the last
      one consumed let the search go on; the last one consumed gave the
      answer, or was a server error, or was the final outcome. */
  function RunModels(outcomes: seq<Outcome>): (r: Run)
    ensures r.attempts <= |outcomes|
    ensures r.attempts == 0 <==> |outcomes| == 0
    ensures forall i :: 0 <= i < r.attempts - 1 ==> Classify(outcomes[i]).TryNext?
    ensures r.answer.Some? ==> r.attempts > 0 && Classify(outcomes[r.attempts - 1]) == Answer(r.answer.value)
    ensures r.answer.None? && r.attempts > 0 ==> !Classify(outcomes[r.attempts - 1]).Answer?
    ensures r.answer.None? && r.attempts < |outcomes| ==> Classify(outcomes[r.attempts - 1]).GiveUp?
    decreases |outcomes|
  {
    if |outcomes| == 0 then Run(None, 0)
    else
      match Classify(outcomes[0])
      case Answer(text) => Run(Some(text), 1)
      case GiveUp => Run(None, 1)
      case TryNext =>
        var rest := RunModels(outcomes[1..]);
        assert forall i :: 1 <= i < rest.attempts ==> outcomes[i] == outcomes[1..][i - 1];
        Run(rest.answer, rest.attempts + 1)
  }

  /** `generateAnswerGemini`: without an API key, or when no model gives an
      answer, the fallback answer for the language. */
  function GenerateAnswer(language: string, apiKey: Option<string>, configured: Option<string>, outcomes: seq<Outcome>): (r: string)
    requires |outcomes| == |ModelsToTry(configured)|
    ensures !(apiKey.Some? && Truthy(apiKey.value)) ==> r == FallbackAnswer(language)
    ensures r == FallbackAnswer(language) || exists i :: 0 <= i < |outcomes| && Classify(outcomes[i]) == Answer(r)
    ensures apiKey.Some? && Truthy(apiKey.value) ==> r == RunModels(outcomes).answer.GetOr(FallbackAnswer(language))
  {
    if !(apiKey.Some? && Truthy(apiKey.value)) then FallbackAnswer(language)
    else
      var run := RunModels(outcomes);
      match run.answer
      case Some(text) => text
      case None => FallbackAnswer(language)
  }

  // ---------------------------------------------------------------------
  // Properties of the loop

  /** The first model whose text is non-blank after trimming supplies the
      answer, after exactly that many calls. */
  lemma {:induction false} FirstAnswerWins(outcomes: seq<Outcome>, i: nat)
    requires i < |outcomes|
    requires forall j :: 0 <= j < i ==> Classify(outcomes[j]).TryNext?
    requires outcomes[i].Generated? && !AllWhitespace(outcomes[i].text)
    ensures RunModels(outcomes) == Run(Some(Trim(outcomes[i].text)), i + 1)
    decreases i
  {
    if i == 0 {
      assert Classify(outcomes[0]) == Answer(Trim(outcomes[0].text));
    } else {
      var tail := outcomes[1..];
      assert Classify(outcomes[0]).TryNext?;
      assert tail[i - 1] == outcomes[i];
      assert forall j :: 0 <= j < i - 1 ==> tail[j] == outcomes[j + 1];
      FirstAnswerWins(tail, i - 1);
      assert RunModels(outcomes) == Run(RunModels(tail).answer, RunModels(tail).attempts + 1);
    }
  }

  /** A server error stops the loop: no later model is called, and what
      the later models would have done makes no difference. */
  lemma {:induction false} ServerErrorStops(outcomes: seq<Outcome>, i: nat, later: seq<Outcome>)
    requires i < |outcomes|
    requires forall j :: 0 <= j < i ==> Classify(outcomes[j]).TryNext?
    requires IsServerError(outcomes[i])
    ensures RunModels(outcomes[..i + 1] + later) == Run(None, i + 1)
    ensures RunModels(outcomes) == Run(None, i + 1)
    decreases i
  {
    var s := outcomes[..i + 1] + later;
    assert s[i] == outcomes[i];
    if i > 0 {
      assert outcomes[1..][..i] + later == s[1..];
      assert forall j :: 0 <= j < i - 1 ==> outcomes[1..][j] == outcomes[j + 1];
      ServerErrorStops(outcomes[1..], i - 1, later);
    }
  }

  /** When every model fails without a server error or returns blank text,
      every model is called and no answer is found. */
  lemma {:induction false} AllSoftFailuresExhaust(outcomes: seq<Outcome>)
    requires forall j :: 0 <= j < |outcomes| ==> Classify(outcomes[j]).TryNext?
    ensures RunModels(outcomes) == Run(None, |outcomes|)
    decreases |outcomes|
  {
    if |outcomes| > 0 {
      assert forall j :: 0 <= j < |outcomes| - 1 ==> outcomes[1..][j] == outcomes[j + 1];
      AllSoftFailuresExhaust(outcomes[1..]);
    }
  }

  /** With an API key, the first model whose text is non-blank after
      trimming supplies the answer. */
  lemma GenerateAnswerFirstWins(language: string, apiKey: Option<string>, configured: Option<string>, outcomes: seq<Outcome>, i: nat)
    requires |outcomes| == |ModelsToTry(configured)|
    requires apiKey.Some? && Truthy(apiKey.value)
    requires i < |outcomes|
    requires forall j :: 0 <= j < i ==> Classify(outcomes[j]).TryNext?
    requires outcomes[i].Generated? && !AllWhitespace(outcomes[i].text)
    ensures GenerateAnswer(language, apiKey, configured, outcomes) == Trim(outcomes[i].text)
  {
    FirstAnswerWins(outcomes, i);
  }

  /** With an API key, a server error before any answer gives the
      language's fallback answer, whatever the later models would say. */
  lemma GenerateAnswerServerErrorFallsBack(language: string, apiKey: Option<string>, configured: Option<string>, outcomes: seq<Outcome>, i: nat)
    requires |outcomes| == |ModelsToTry(configured)|
    requires apiKey.Some? && Truthy(apiKey.value)
    requires i < |outcomes|
    requires forall j :: 0 <= j < i ==> Classify(outcomes[j]).TryNext?
    requires IsServerError(outcomes[i])
    ensures GenerateAnswer(language, apiKey, configured, outcomes) == FallbackAnswer(language)
  {
    ServerErrorStops(outcomes, i, []);
  }

  /** With an API key, when every model fails softly or returns blank text,
      the answer is the language's fallback answer. */
  lemma GenerateAnswerExhaustedFallsBack(language: string, apiKey: Option<string>, configured: Option<string>, outcomes: seq<Outcome>)
    requires |outcomes| == |ModelsToTry(configured)|
    requires forall j :: 0 <= j < |outcomes| ==> Classify(outcomes[j]).TryNext?
    ensures GenerateAnswer(language, apiKey, configured, outcomes) == FallbackAnswer(language)
  {
    AllSoftFailuresExhaust(outcomes);
  }

  /** A 404 from the first model, an empty reply from the second and text
      from the third: the third model's text, after three calls. */
  lemma ExampleFallsThroughToThirdModel()
    ensures RunModels([Failed(Some(404), None), Generated(""), Generated("Apply"),
                       Failed(Some(503), None), Generated("x")])
         == Run(Some("Apply"), 3)
  {
    var os := [Failed(Some(404), None), Generated(""), Generated("Apply"),
               Failed(Some(503), None), Generated("x")];
    assert Classify(os[0]) == TryNext;
    assert Classify(os[1]) == TryNext by {
      assert AllWhitespace("");
    }
    assert !AllWhitespace("Apply") by {
      assert "Apply"[0] == 'A';
    }
    assert Trim("Apply") == "Apply" by {
      assert TrimStart("Apply") == "Apply";
      assert TrimEnd("Apply") == "Apply";
    }
    FirstAnswerWins(os, 2);
  }

  // ---------------------------------------------------------------------
  // Language tables

  const SystemPrompts: map<string, string> := map[
    "hi" := "आप एक वित्तीय सलाहकार AI हैं।\n"
         + "सिर्फ ऋण/क्रेडिट/सरकारी योजना से संबंधित प्रश्नों का जवाब दें।\n"
         + "यदि सवाल ऋण/क्रेडिट से बाहर है, तो विनम्रता से बताएँ कि आप केवल ऋण और संबंधित नियमों में मदद करते हैं।\n"
         + "यदि संदर्भ (Context) में नियम/परिपत्र दिए गए हों, तो केवल उपयोगकर्ता के प्रश्न से संबंधित अंश ही उपयोग करें और अनावश्यक विवरण न दें।\n"
         + "उत्तर संक्षिप्त, स्पष्ट और कार्रवाई योग्य रखें।",
    "en" := "You are a financial advisor AI.\n"
         + "Only answer questions related to loans/credit/government schemes.\n"
         + "If the question is outside loans/credit, politely say you can only help with loans and related rules.\n"
         + "If Context includes regulations/circulars, use only the parts relevant to the user's question and avoid unnecessary detail.\n"
         + "Keep answers short, clear, and actionable.",
    "ta" := "நீங்கள் கடன்/கிரெடிட்/அரசுத் திட்டங்கள் சம்பந்தப்பட்ட கேள்விகளுக்கு மட்டும் பதில் சொல்லும் நிதி ஆலோசகர் AI.",
    "te" := "మీరు రుణం/క్రెడిట్/సర్కార్ పథకాలకు సంబంధించిన ప్రశ్నలకు మాత్రమే స్పందించే ఆర్థిక సలహాదారు AI.",
    "bn" := "আপনি একটি আর্থিক উপদেষ্টা AI এবং কেবল ঋণ/ক্রেডিট/সরকারি স্কিম সম্পর্কিত প্রশ্নের উত্তর দেবেন।"
  ]

  const FallbackAnswers: map<string, string> := map[
    "hi" := "मुझे इस बारे में सटीक जानकारी नहीं मिली। कृपया अपने स्थानीय बैंक या कृषि कार्यालय से संपर्क करें। आप हमारी ग्राहक सेवा से भी मदद ले सकते हैं।",
    "en" := "I could not find specific information about this. Please contact your local bank or agriculture office. You can also get help from our customer service.",
    "ta" := "இது பற்றி குறிப்பிட்ட தகவல் கிடைக்கவில்லை. உங்கள் உள்ளூர் வங்கி அல்லது விவசாய அலுவலகத்தை தொடர்பு கொள்ளவும். எங்கள் வாடிக்கையாளர் சேவையிலிருந்து உதவி பெறலாம்.",
    "te" := "దీని గురించి నిర్దిష్ట సమాచారం దొరకలేదు. దయచేసి మీ స్థానిక బ్యాంక్ లేదా వ్యవసాయ కార్యాలయాన్ని సంప్రదించండి. మా కస్టమర్ సేవ నుండి కూడా సహాయం పొందవచ్చు.",
    "bn" := "এটি সম্পর্কে নির্দিষ্ট তথ্য পাওয়া যায়নি। অনুগ্রহ করে আপনার স্থানীয় ব্যাঙ্ক বা কৃষি অফিসে যোগাযোগ করুন। আপনি আমাদের গ্রাহক সেবা থেকেও সাহায্য নিতে পারেন।"
  ]

  /** The languages both tables cover. */
  const Languages: set<string> := {"hi", "en", "ta", "te", "bn"}

  /** The table's own entry for a language with a non-empty entry, English
      for every other key. */
  function LookupOrEnglish(table: map<string, string>, language: string): (r: string)
    requires "en" in table
    ensures language in table && Truthy(table[language]) ==> r == table[language]
    ensures !(language in table && Truthy(table[language])) ==> r == table["en"]
  {
    if language in table && Truthy(table[language]) then table[language] else table["en"]
  }

  function SystemPrompt(language: string): (r: string)
    ensures language in Languages ==> r == SystemPrompts[language]
    ensures language !in Languages ==> r == SystemPrompts["en"]
  {
    LookupOrEnglish(SystemPrompts, language)
  }

  function FallbackAnswer(language: string): (r: string)
    ensures language in Languages ==> r == FallbackAnswers[language]
    ensures language !in Languages ==> r == FallbackAnswers["en"]
  {
    LookupOrEnglish(FallbackAnswers, language)
  }

  // ---------------------------------------------------------------------
  // The lookup as the code writes it

  /** The members every object literal inherits from `Object.prototype`;
      each is a function, or for `__proto__` an object, and so truthy. */
  const InheritedMembers: set<string> := {
    "constructor", "__proto__", "hasOwnProperty", "isPrototypeOf",
    "propertyIsEnumerable", "toString", "toLocaleString", "valueOf",
    "__defineGetter__", "__defineSetter__", "__lookupGetter__", "__lookupSetter__"}

  /** A value `table[key]` can produce that is truthy. */
  datatype JsValue = Str(s: string) | InheritedMember(name: string)

  /** `table[key] || table["en"]` on an object literal: an own non-empty
      string, else an inherited member, else the English entry. */
  function LookupAsWritten(table: map<string, string>, key: string): (r: JsValue)
    requires "en" in table
    ensures key in table && Truthy(table[key]) ==> r == Str(table[key])
    ensures key !in table && key in InheritedMembers ==> r == InheritedMember(key)
    ensures !(key in table && Truthy(table[key])) && !(key !in table && key in InheritedMembers) ==> r == Str(table["en"])
  {
    if key in table && Truthy(table[key]) then Str(table[key])
    else if key !in table && key in InheritedMembers then InheritedMember(key)
    else Str(table["en"])
  }

  /** For every key that does not name an inherited member, the lookup as
      written and the corrected lookup agree. */
  lemma AsWrittenAgreesOffPrototype(table: map<string, string>, key: string)
    requires "en" in table
    requires key !in InheritedMembers || key in table
    ensures LookupAsWritten(table, key) == Str(LookupOrEnglish(table, key))
  {
  }

  /** The language `toString` (or `constructor`, ...) makes both lookups
      return a function rather than any text of the table, where English was
      intended. */
  lemma InheritedKeyEscapesTable()
    ensures LookupAsWritten(FallbackAnswers, "toString") == InheritedMember("toString")
    ensures LookupAsWritten(SystemPrompts, "constructor") == InheritedMember("constructor")
    ensures FallbackAnswer("toString") == FallbackAnswers["en"]
  {
    assert "toString" !in FallbackAnswers;
    assert "constructor" !in SystemPrompts;
  }
}
