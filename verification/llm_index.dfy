/** `services/llm-service/index.js`: the rule-based healthcare responder.
    A lower-cased query is matched against four keyword groups in a fixed
    priority order (emergency, symptoms, medication, general health); the
    first group that matches decides the canned reply, its type and a fixed
    confidence, and no match gives the general reply. */
module LlmIndex {
  import opened Base
  import opened Strings

  datatype Category = Emergency | Symptoms | Medication | GeneralHealth | General

  const EmergencyKeywords := ["emergency", "chest pain", "difficulty breathing", "severe"]
  const SymptomKeywords := ["headache", "fever", "cough", "pain"]
  const MedicationKeywords := ["medication", "medicine", "drug", "pill"]
  const GeneralHealthKeywords := ["health", "wellness", "exercise", "diet"]

  function Keywords(c: Category): seq<string> {
    match c
    case Emergency => EmergencyKeywords
    case Symptoms => SymptomKeywords
    case Medication => MedicationKeywords
    case GeneralHealth => GeneralHealthKeywords
    case General => []
  }

  /** Position in the priority order: a higher rank is tested first. */
  function Rank(c: Category): nat {
    match c
    case Emergency => 4
    case Symptoms => 3
    case Medication => 2
    case GeneralHealth => 1
    case General => 0
  }

  /** The lower-cased query contains one of the category's keywords. */
  predicate Mentions(lowered: string, c: Category) {
    ContainsAny(lowered, Keywords(c))
  }

  /** The `if` chain of `generateHealthcareResponse`. */
  function Classify(query: string): (c: Category)
    // The chosen category matches (unless it is the default)...
    ensures c != General ==> Mentions(ToLower(query), c)
    // ...and no category of higher priority does.
    ensures forall d: Category :: Rank(d) > Rank(c) ==> !Mentions(ToLower(query), d)
  {
    var q := ToLower(query);
    if Mentions(q, Emergency) then Emergency
    else if Mentions(q, Symptoms) then Symptoms
    else if Mentions(q, Medication) then Medication
    else if Mentions(q, GeneralHealth) then GeneralHealth
    else General
  }

  /** The classification is determined by the priority rule: any category
      that matches and beats every other matching category is the one
      chosen. */
  lemma ClassifyIsHighestMatch(query: string, c: Category)
    requires c != General ==> Mentions(ToLower(query), c)
    requires forall d: Category :: Rank(d) > Rank(c) ==> !Mentions(ToLower(query), d)
    ensures Classify(query) == c
  {
    var k := Classify(query);
    assert Rank(k) > Rank(c) ==> !Mentions(ToLower(query), k);
    assert Rank(c) > Rank(k) ==> !Mentions(ToLower(query), c);
  }

  /** The topic the symptom reply names: the first of headache, fever and
      cough mentioned, otherwise pain. */
  function SymptomTopic(lowered: string): (t: string)
    ensures t == "headaches" <==> Contains(lowered, "headache")
    ensures t == "fever" <==> !Contains(lowered, "headache") && Contains(lowered, "fever")
    ensures t == "coughing" <==>
      !Contains(lowered, "headache") && !Contains(lowered, "fever") && Contains(lowered, "cough")
    ensures t == "pain" <==>
      !Contains(lowered, "headache") && !Contains(lowered, "fever") && !Contains(lowered, "cough")
  {
    if Contains(lowered, "headache") then "headaches"
    else if Contains(lowered, "fever") then "fever"
    else if Contains(lowered, "cough") then "coughing"
    else "pain"
  }

  datatype Answer = Answer(response: string, kind: string, confidence: real)

  const EmergencyReply := "This sounds like it could be a medical emergency. Please call emergency services (911) immediately and seek immediate medical attention."
  const SymptomReplyTail := ". While I can provide general information, it's important to consult with a healthcare provider for proper diagnosis and treatment. Would you like me to provide some general information about when to seek medical attention?"
  const MedicationReply := "I can provide general information about medications, but for specific medical advice about your medications, please consult with your doctor or pharmacist. They can provide personalized guidance based on your medical history and current health status."
  const GeneralHealthReply := "I'm happy to provide general health and wellness information! Maintaining a healthy lifestyle with regular exercise, balanced nutrition, and adequate sleep is important for overall well-being. What specific aspect of health would you like to know more about?"
  const GeneralReply := "I'm here to help with your healthcare questions. However, I cannot provide medical diagnosis or treatment. For specific medical concerns, please consult with a qualified healthcare professional. How can I assist you today?"
  const Disclaimer := "I am an AI assistant and cannot provide medical diagnosis or treatment. Always consult with qualified healthcare professionals for medical advice."

  /** `generateHealthcareResponse(query)`: total, one fixed type and
      confidence per category. */
  function GenerateHealthcareResponse(query: string): (a: Answer)
    ensures var q := ToLower(query);
      && (a.kind == "emergency" <==> Mentions(q, Emergency))
      && (a.kind == "symptoms" <==> !Mentions(q, Emergency) && Mentions(q, Symptoms))
      && (a.kind == "medication" <==>
            !Mentions(q, Emergency) && !Mentions(q, Symptoms) && Mentions(q, Medication))
      && (a.kind == "general_health" <==>
            !Mentions(q, Emergency) && !Mentions(q, Symptoms) && !Mentions(q, Medication)
            && Mentions(q, GeneralHealth))
      && (a.kind == "general" <==> forall c: Category :: !Mentions(q, c))
    ensures a.kind == "emergency" ==> a.response == EmergencyReply && a.confidence == 0.9
    ensures a.kind == "symptoms" ==>
      a.confidence == 0.7 && a.response == "I understand you're asking about " + SymptomTopic(ToLower(query)) + SymptomReplyTail
    ensures a.kind == "medication" ==> a.response == MedicationReply && a.confidence == 0.8
    ensures a.kind == "general_health" ==> a.response == GeneralHealthReply && a.confidence == 0.6
    ensures a.kind == "general" ==> a.response == GeneralReply && a.confidence == 0.5
  {
    match Classify(query)
    case Emergency => Answer(EmergencyReply, "emergency", 0.9)
    case Symptoms =>
      Answer("I understand you're asking about " + SymptomTopic(ToLower(query)) + SymptomReplyTail, "symptoms", 0.7)
    case Medication => Answer(MedicationReply, "medication", 0.8)
    case GeneralHealth => Answer(GeneralHealthReply, "general_health", 0.6)
    case General => Answer(GeneralReply, "general", 0.5)
  }

  /** Matching ignores letter case: a query and its lower-cased form get the
      same answer. */
  lemma CaseInsensitive(query: string)
    ensures GenerateHealthcareResponse(ToLower(query)) == GenerateHealthcareResponse(query)
  {
    assert ToLower(ToLower(query)) == ToLower(query);
  }

  /** An emergency keyword wins even when a symptom keyword is present too
      ("chest pain" contains "pain"). */
  lemma EmergencyBeatsSymptoms(query: string)
    requires Contains(ToLower(query), "chest pain")
    ensures GenerateHealthcareResponse(query).kind == "emergency"
    ensures GenerateHealthcareResponse(query).confidence == 0.9
  {
    assert Contains(ToLower(query), EmergencyKeywords[1]);
  }

  datatype ChatResponse =
    | Answered(response: string, kind: string, confidence: real, disclaimer: string)
    | BadRequest(error: string)
    | ServerError(error: string, message: string)

  /** `POST /chat`. A non-string truthy message makes `toLowerCase` throw,
      which the handler's `catch` answers with a 500 carrying the error's
      message; `thrown` is the text of that `TypeError`. */
  function Chat(message: Json, thrown: string): (r: ChatResponse)
    ensures !message.Truthy() <==> r == BadRequest("Message is required")
    ensures message.Truthy() && message.Str? ==>
      var a := GenerateHealthcareResponse(message.s);
      r == Answered(a.response, a.kind, a.confidence, Disclaimer)
    ensures message.Truthy() && !message.Str? ==> r == ServerError("Internal server error", thrown)
  {
    if !message.Truthy() then BadRequest("Message is required")
    else if !message.Str? then ServerError("Internal server error", thrown)
    else
      var a := GenerateHealthcareResponse(message.s);
      Answered(a.response, a.kind, a.confidence, Disclaimer)
  }
}
