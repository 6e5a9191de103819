/** The language-model front end of chatbot_ai.py (class `GymChatbotAI`): the
    system prompt assembled from the facility record with `.get` defaults, the
    blank-input guard, and the catch-all around the completion request. The
    completion service itself is a function supplied from outside. */
module ChatbotAI {
  import opened Strings
  import opened Facility

  // ---------------------------------------------------------------------------
  // The system prompt

  const DefaultGymName: string := "FitZone Fitness Center"

  const IntroHead: string := "You are FitZone Assistant, a friendly and helpful AI chatbot for "

  /** From the end of the first line to the first numbered rule. */
  const IntroRules: string :=
    ".\n"
    + "\n"
    + "YOUR IDENTITY:\n"
    + "- Your name is \"FitZone Assistant\"\n"
    + "- You are an AI assistant specifically for FitZone Fitness Center\n"
    + "- You help users with gym-related questions\n"
    + "\n"
    + "PERSONALITY:\n"
    + "- Be friendly, professional, and encouraging\n"
    + "- Use emojis moderately (1-2 per response)\n"
    + "- Keep responses concise but helpful\n"
    + "- Be enthusiastic about fitness!\n"
    + "\n"
    + "IMPORTANT RULES:\n"
    + "1. ONLY answer questions related to FitZone gym\n"

  /** From the third numbered rule to the membership heading. */
  const IntroTail: string :=
    "3. If asked your name: Say \"I'm FitZone Assistant, your AI helper for all things fitness at FitZone! \U{1F916}\U{1F4AA}\"\n"
    + "4. If asked who made you/created you: Say \"I was created to help FitZone members and visitors with their questions!\"\n"
    + "5. For off-topic questions: Politely redirect to gym topics\n"
    + "6. NEVER make up information not provided below\n"
    + "\n"
    + "=== FITZONE GYM INFORMATION ===\n"
    + "\n"
    + "\U{1F4CB} MEMBERSHIP PLANS:\n"

  const Closing: string :=
    "\n"
    + "=== END OF GYM INFORMATION ===\n"
    + "\n"
    + "Remember: Be helpful, accurate, and always encourage fitness! \U{1F4AA}"

  /** The fixed text of the prompt template, around the values it shows. */
  datatype Wording = Wording(
    head: string,            // the first line, up to the gym name
    rules: string,           // identity, personality and rule 1
    offersLead: string,      // rule 2 up to the phone number
    offersJoin: string,      // between the phone number and the e-mail
    offersEnd: string,       // rule 2 after the e-mail
    tail: string,            // rules 3 to 6 and the membership heading
    trainersHeading: string,
    timingsHeading: string,
    facilitiesHeading: string,
    classesHeading: string,
    classesNote: string,
    contactHeading: string,
    closing: string)

  /** The text of chatbot_ai.py. */
  const FitZoneWording: Wording := Wording(
    IntroHead, IntroRules,
    "2. If asked about discounts/offers: Say \"We regularly have special offers! \U{1F389} Please contact us at ",
    " or email ",
    " to learn about current promotions and discounts.\"\n",
    IntroTail,
    "\n\U{1F3CB}\U{FE0F} PERSONAL TRAINERS:\n",
    "\n\U{1F552} GYM TIMINGS:\n",
    "\n\U{1F3E2} FACILITIES:\n",
    "\n\U{1F3AF} CLASSES OFFERED:\n",
    "\n(All classes are included in membership!)\n",
    "\n\U{1F4DE} CONTACT INFORMATION:\n",
    Closing)

  /** Rule 2, which quotes the contact phone and e-mail. */
  function OffersRule(w: Wording, phone: string, email: string): string {
    w.offersLead + phone + w.offersJoin + email + w.offersEnd
  }

  /** Every value the prompt shows, each read with its `.get` default. */
  datatype PromptFields = PromptFields(
    gymName: string, offersPhone: string, offersEmail: string,
    plans: seq<Plan>,
    trainerInfo: string, specializations: seq<string>, trainerPricing: string, trainerBooking: string,
    weekdays: string, weekends: string, holidays: string,
    equipment: seq<string>, amenities: seq<string>, classes: seq<string>,
    phone: string, email: string, address: string)

  /** The sections `gym_data.get(section, {})` and the lookups made inside the f-strings. */
  function Fields(d: GymData): PromptFields {
    PromptFields(
      Lookup(d.gymInfo, (x: GymInfo) => x.name, DefaultGymName),
      Lookup(d.contact, (x: ContactInfo) => x.phone, "our front desk"),
      Lookup(d.contact, (x: ContactInfo) => x.email, "us"),
      Lookup(d.membership, (x: MembershipInfo) => x.types, []),
      Lookup(d.trainers, (x: TrainerInfo) => x.info, "Available"),
      Lookup(d.trainers, (x: TrainerInfo) => x.specializations, []),
      Lookup(d.trainers, (x: TrainerInfo) => x.pricing, "Contact us"),
      Lookup(d.trainers, (x: TrainerInfo) => x.booking, "Contact front desk"),
      Lookup(d.timings, (x: TimingInfo) => x.weekdays, "Contact us"),
      Lookup(d.timings, (x: TimingInfo) => x.weekends, "Contact us"),
      Lookup(d.timings, (x: TimingInfo) => x.holidays, "Contact us"),
      Lookup(d.facilities, (x: FacilityInfo) => x.equipment, []),
      Lookup(d.facilities, (x: FacilityInfo) => x.amenities, []),
      Lookup(d.facilities, (x: FacilityInfo) => x.classes, []),
      Lookup(d.contact, (x: ContactInfo) => x.phone, "N/A"),
      Lookup(d.contact, (x: ContactInfo) => x.email, "N/A"),
      Lookup(d.contact, (x: ContactInfo) => x.address, "N/A"))
  }

  /** A missing section shows its fixed defaults: the gym name, `Contact us` for
      timings and trainer pricing, `N/A` for the contact block (but "our front desk"
      and "us" in the discount rule), and empty lists. */
  lemma MissingSectionDefaults(d: GymData)
    ensures d.gymInfo.None? ==> Fields(d).gymName == "FitZone Fitness Center"
    ensures d.membership.None? ==> Fields(d).plans == []
    ensures d.trainers.None? ==>
      && Fields(d).trainerInfo == "Available" && Fields(d).specializations == []
      && Fields(d).trainerPricing == "Contact us" && Fields(d).trainerBooking == "Contact front desk"
    ensures d.timings.None? ==>
      Fields(d).weekdays == "Contact us" && Fields(d).weekends == "Contact us" && Fields(d).holidays == "Contact us"
    ensures d.facilities.None? ==>
      Fields(d).equipment == [] && Fields(d).amenities == [] && Fields(d).classes == []
    ensures d.contact.None? ==>
      && Fields(d).offersPhone == "our front desk" && Fields(d).offersEmail == "us"
      && Fields(d).phone == "N/A" && Fields(d).email == "N/A" && Fields(d).address == "N/A"
  {
  }

  /** A missing section reads the same as a present section with every key missing. */
  lemma MissingSectionIsEmpty(d: GymData)
    ensures Fields(d.(gymInfo := None)) == Fields(d.(gymInfo := Some(GymInfo(None))))
    ensures Fields(d.(membership := None)) == Fields(d.(membership := Some(MembershipInfo(None))))
    ensures Fields(d.(trainers := None)) == Fields(d.(trainers := Some(TrainerInfo(None, None, None, None, None))))
    ensures Fields(d.(timings := None)) == Fields(d.(timings := Some(TimingInfo(None, None, None))))
    ensures Fields(d.(facilities := None)) == Fields(d.(facilities := Some(FacilityInfo(None, None, None))))
    ensures Fields(d.(contact := None)) == Fields(d.(contact := Some(ContactInfo(None, None, None))))
  {
  }

  /** The opening f-string, up to the membership heading. */
  function Intro(w: Wording, f: PromptFields): string {
    w.head + f.gymName + w.rules + OffersRule(w, f.offersPhone, f.offersEmail) + w.tail
  }

  /** What one plan adds to the prompt. */
  function PlanEntry(p: Plan): string {
    "\n\U{2022} " + p.name + ": " + p.price + "/" + p.duration + "\n  Features: " + Join(", ", p.features) + "\n"
  }

  /** One `• Label: value` line. */
  function Bullet(field: string, value: string): string {
    "\U{2022} " + field + ": " + value + "\n"
  }

  function TrainersSection(w: Wording, f: PromptFields): string {
    w.trainersHeading
      + Bullet("Availability", f.trainerInfo)
      + Bullet("Specializations", Join(", ", f.specializations))
      + Bullet("Pricing", f.trainerPricing)
      + Bullet("Booking", f.trainerBooking)
  }

  function TimingsSection(w: Wording, f: PromptFields): string {
    w.timingsHeading
      + Bullet("Weekdays", f.weekdays)
      + Bullet("Weekends", f.weekends)
      + Bullet("Holidays", f.holidays)
  }

  function FacilitiesSection(w: Wording, f: PromptFields): string {
    w.facilitiesHeading
      + Bullet("Equipment", Join(", ", f.equipment))
      + Bullet("Amenities", Join(", ", f.amenities))
  }

  function ClassesSection(w: Wording, f: PromptFields): string {
    w.classesHeading
      + Join(", ", f.classes)
      + w.classesNote
  }

  function ContactSection(w: Wording, f: PromptFields): string {
    w.contactHeading
      + Bullet("Phone", f.phone)
      + Bullet("Email", f.email)
      + Bullet("Address", f.address)
  }

  /** The sections of the f-string appended after the plan loop, in order. */
  function TrailerParts(w: Wording, f: PromptFields): seq<string> {
    [TrainersSection(w, f), TimingsSection(w, f), FacilitiesSection(w, f), ClassesSection(w, f), ContactSection(w, f), w.closing]
  }

  /** The f-string appended after the plan loop: its sections one after another. */
  function Trailer(w: Wording, f: PromptFields): string {
    Join("", TrailerParts(w, f))
  }

  function PromptText(w: Wording, f: PromptFields): string {
    Intro(w, f) + ConcatMap(PlanEntry, f.plans) + Trailer(w, f)
  }

  /** `_build_system_prompt`: the opening text, one `+=` per stored plan, then the
      rest. It reads only the record and the fixed wording, so it is given both. */
  method BuildSystemPrompt(w: Wording, d: GymData) returns (prompt: string)
    ensures prompt == PromptText(w, Fields(d))
  {
    var f := Fields(d);
    var plans := f.plans;
    prompt := Intro(w, f);
    var i := 0;
    while i < |plans|
      invariant 0 <= i <= |plans|
      invariant prompt == Intro(w, f) + ConcatMap(PlanEntry, plans[..i])
    {
      var plan := plans[i];
      prompt := prompt + ("\n\U{2022} " + plan.name + ": " + plan.price + "/" + plan.duration
                          + "\n  Features: " + Join(", ", plan.features) + "\n");
      assert plans[..i + 1][..i] == plans[..i];
      AppendAssoc(Intro(w, f), ConcatMap(PlanEntry, plans[..i]), PlanEntry(plan));
      i := i + 1;
    }
    assert plans[..i] == plans;
    prompt := prompt + Trailer(w, f);
  }

  /** In `head + ConcatMap(PlanEntry, plans) + tail`, the entry of plan `i` starts
      after `head` and the entries before it. */
  lemma EntryAt(head: string, plans: seq<Plan>, tail: string, i: nat)
    requires i < |plans|
    ensures OccursAt(head + ConcatMap(PlanEntry, plans) + tail, PlanEntry(plans[i]),
                     |head| + |ConcatMap(PlanEntry, plans[..i])|)
  {
    var before, entry := ConcatMap(PlanEntry, plans[..i]), PlanEntry(plans[i]);
    var after := ConcatMap(PlanEntry, plans[i + 1..]);
    ConcatMapAt(PlanEntry, plans, i);
    AppendAssoc(head, before + entry + after, tail);
    AppendAssoc(before + entry, after, tail);
    AppendAssoc(before, entry, after + tail);
    AppendAssoc(head, before, entry + (after + tail));
    AppendAssoc(head + before, entry, after + tail);
    assert OccursAt(head + before + entry + (after + tail), entry, |head + before|);
  }

  /** Where the entry of plan `i` starts in the prompt. */
  function PlanOffset(w: Wording, f: PromptFields, i: nat): nat
    requires i <= |f.plans|
  {
    |Intro(w, f)| + |ConcatMap(PlanEntry, f.plans[..i])|
  }

  /** The prompt lists every stored plan: the entry of plan `i` (name,
      price/duration and comma-joined features) stands at `PlanOffset(w, f, i)`. */
  lemma PromptListsPlan(w: Wording, f: PromptFields, i: nat)
    requires i < |f.plans|
    ensures OccursAt(PromptText(w, f), PlanEntry(f.plans[i]), PlanOffset(w, f, i))
  {
    EntryAt(Intro(w, f), f.plans, Trailer(w, f), i);
  }

  /** ... and in stored order: each entry ends before the next one starts. */
  lemma PromptPlansInOrder(w: Wording, f: PromptFields, i: nat, j: nat)
    requires i < j <= |f.plans|
    ensures PlanOffset(w, f, i) + |PlanEntry(f.plans[i])| <= PlanOffset(w, f, j)
  {
    var upto := f.plans[..j];
    ConcatMapAt(PlanEntry, upto, i);
    assert upto[..i] == f.plans[..i];
  }

  /** Every section is part of the prompt. */
  lemma SectionsInPrompt(w: Wording, f: PromptFields)
    ensures Contains(PromptText(w, f), Intro(w, f))
    ensures Contains(PromptText(w, f), TrainersSection(w, f))
    ensures Contains(PromptText(w, f), TimingsSection(w, f))
    ensures Contains(PromptText(w, f), FacilitiesSection(w, f))
    ensures Contains(PromptText(w, f), ClassesSection(w, f))
    ensures Contains(PromptText(w, f), ContactSection(w, f))
  {
    var p := PromptText(w, f);
    var t1, t2, t3 := TrainersSection(w, f), TimingsSection(w, f), FacilitiesSection(w, f);
    var t4, t5 := ClassesSection(w, f), ContactSection(w, f);
    var parts := TrailerParts(w, f);
    PartsOf3(Intro(w, f), ConcatMap(PlanEntry, f.plans), Trailer(w, f));
    JoinHasItems("", parts);
    assert parts[0] == t1 && parts[1] == t2 && parts[2] == t3 && parts[3] == t4 && parts[4] == t5;
    ContainsTrans(p, Trailer(w, f), t1);
    ContainsTrans(p, Trailer(w, f), t2);
    ContainsTrans(p, Trailer(w, f), t3);
    ContainsTrans(p, Trailer(w, f), t4);
    ContainsTrans(p, Trailer(w, f), t5);
  }

  /** The prompt names the gym and quotes the discount contact. */
  lemma PromptShowsIntro(w: Wording, f: PromptFields)
    ensures Contains(PromptText(w, f), w.head + f.gymName + w.rules)
    ensures Contains(PromptText(w, f), OffersRule(w, f.offersPhone, f.offersEmail))
  {
    var head, rule := w.head + f.gymName + w.rules, OffersRule(w, f.offersPhone, f.offersEmail);
    SectionsInPrompt(w, f);
    PartsOf3(head, rule, w.tail);
    ContainsTrans(PromptText(w, f), Intro(w, f), head);
    ContainsTrans(PromptText(w, f), Intro(w, f), rule);
  }

  /** The prompt shows each trainer field on its own line. */
  lemma PromptShowsTrainers(w: Wording, f: PromptFields)
    ensures Contains(PromptText(w, f), Bullet("Availability", f.trainerInfo))
    ensures Contains(PromptText(w, f), Bullet("Specializations", Join(", ", f.specializations)))
    ensures Contains(PromptText(w, f), Bullet("Pricing", f.trainerPricing))
    ensures Contains(PromptText(w, f), Bullet("Booking", f.trainerBooking))
  {
    var b1, b2 := Bullet("Availability", f.trainerInfo), Bullet("Specializations", Join(", ", f.specializations));
    var b3, b4 := Bullet("Pricing", f.trainerPricing), Bullet("Booking", f.trainerBooking);
    SectionsInPrompt(w, f);
    PartsOf5(w.trainersHeading, b1, b2, b3, b4);
    ContainsTrans(PromptText(w, f), TrainersSection(w, f), b1);
    ContainsTrans(PromptText(w, f), TrainersSection(w, f), b2);
    ContainsTrans(PromptText(w, f), TrainersSection(w, f), b3);
    ContainsTrans(PromptText(w, f), TrainersSection(w, f), b4);
  }

  /** The prompt shows each opening-hours field on its own line. */
  lemma PromptShowsTimings(w: Wording, f: PromptFields)
    ensures Contains(PromptText(w, f), Bullet("Weekdays", f.weekdays))
    ensures Contains(PromptText(w, f), Bullet("Weekends", f.weekends))
    ensures Contains(PromptText(w, f), Bullet("Holidays", f.holidays))
  {
    var b1, b2, b3 := Bullet("Weekdays", f.weekdays), Bullet("Weekends", f.weekends), Bullet("Holidays", f.holidays);
    SectionsInPrompt(w, f);
    PartsOf4(w.timingsHeading, b1, b2, b3);
    ContainsTrans(PromptText(w, f), TimingsSection(w, f), b1);
    ContainsTrans(PromptText(w, f), TimingsSection(w, f), b2);
    ContainsTrans(PromptText(w, f), TimingsSection(w, f), b3);
  }

  /** The prompt shows the equipment, amenities and classes lists, comma-joined. */
  lemma PromptShowsFacilities(w: Wording, f: PromptFields)
    ensures Contains(PromptText(w, f), Bullet("Equipment", Join(", ", f.equipment)))
    ensures Contains(PromptText(w, f), Bullet("Amenities", Join(", ", f.amenities)))
    ensures Contains(PromptText(w, f), Join(", ", f.classes))
  {
    var b1, b2 := Bullet("Equipment", Join(", ", f.equipment)), Bullet("Amenities", Join(", ", f.amenities));
    SectionsInPrompt(w, f);
    PartsOf3(w.facilitiesHeading, b1, b2);
    ContainsTrans(PromptText(w, f), FacilitiesSection(w, f), b1);
    ContainsTrans(PromptText(w, f), FacilitiesSection(w, f), b2);
    PartsOf3(w.classesHeading, Join(", ", f.classes), w.classesNote);
    ContainsTrans(PromptText(w, f), ClassesSection(w, f), Join(", ", f.classes));
  }

  /** The prompt shows each contact field on its own line. */
  lemma PromptShowsContact(w: Wording, f: PromptFields)
    ensures Contains(PromptText(w, f), Bullet("Phone", f.phone))
    ensures Contains(PromptText(w, f), Bullet("Email", f.email))
    ensures Contains(PromptText(w, f), Bullet("Address", f.address))
  {
    var b1, b2, b3 := Bullet("Phone", f.phone), Bullet("Email", f.email), Bullet("Address", f.address);
    SectionsInPrompt(w, f);
    PartsOf4(w.contactHeading, b1, b2, b3);
    ContainsTrans(PromptText(w, f), ContactSection(w, f), b1);
    ContainsTrans(PromptText(w, f), ContactSection(w, f), b2);
    ContainsTrans(PromptText(w, f), ContactSection(w, f), b3);
  }

  /** Without a timings section the prompt tells the model to say `Contact us`. */
  lemma TimingsDefault(w: Wording, d: GymData)
    requires d.timings.None?
    ensures Contains(PromptText(w, Fields(d)), Bullet("Weekdays", "Contact us"))
    ensures Contains(PromptText(w, Fields(d)), Bullet("Weekends", "Contact us"))
    ensures Contains(PromptText(w, Fields(d)), Bullet("Holidays", "Contact us"))
  {
    MissingSectionDefaults(d);
    PromptShowsTimings(w, Fields(d));
  }

  /** Without a contact section the contact block shows `N/A` while the discount
      rule sends the user to "our front desk" and "us". */
  lemma ContactDefault(w: Wording, d: GymData)
    requires d.contact.None?
    ensures Contains(PromptText(w, Fields(d)), Bullet("Phone", "N/A"))
    ensures Contains(PromptText(w, Fields(d)), OffersRule(w, "our front desk", "us"))
  {
    MissingSectionDefaults(d);
    PromptShowsContact(w, Fields(d));
    PromptShowsIntro(w, Fields(d));
  }

  // ---------------------------------------------------------------------------
  // The request guard

  const BlankReply: string := "Hi there! \U{1F44B} How can I help you today?"
  const HiccupReply: string :=
    "I'm having a small technical hiccup! \U{1F605} Please try again in a moment, or contact us directly at our phone number for immediate assistance."

  /** `not user_input or not user_input.strip()`. */
  predicate IsBlank(userInput: string) {
    userInput == [] || Strip(userInput, IsPySpace) == []
  }

  /** The guard fires exactly on empty and whitespace-only input. */
  lemma IsBlankIff(userInput: string)
    ensures IsBlank(userInput) <==> AllSpace(userInput, IsPySpace)
  {
    StripEmptyIff(userInput, IsPySpace);
  }

  /** What the completion call produced: an exception, or a response whose
      choices each carry a message content that may be absent. */
  datatype ApiOutcome = Raised | Returned(choices: seq<Option<string>>)

  /** `choices[0].message.content` exists; otherwise indexing or `.strip()`
      raises inside the `try`. */
  predicate HasContent(outcome: ApiOutcome) {
    outcome.Returned? && |outcome.choices| > 0 && outcome.choices[0].Some?
  }

  /** The value of the `try`/`except` block for a given outcome of the call. */
  function Answer(outcome: ApiOutcome): (reply: string)
    ensures !HasContent(outcome) ==> reply == HiccupReply
    ensures HasContent(outcome) ==>
      && (exists k :: IsStrippedAt(outcome.choices[0].value, reply, k, IsPySpace))
      && (reply == [] || (!IsPySpace(reply[0]) && !IsPySpace(reply[|reply| - 1])))
  {
    if HasContent(outcome) then Strip(outcome.choices[0].value, IsPySpace) else HiccupReply
  }

  /** A reply taken from the service is already stripped: `.strip()` applied once
      more changes nothing. */
  lemma AnswerIsStripped(outcome: ApiOutcome)
    requires HasContent(outcome)
    ensures Strip(Answer(outcome), IsPySpace) == Answer(outcome)
  {
    StripIdempotent(outcome.choices[0].value, IsPySpace);
  }

  datatype Message = Message(role: string, content: string)

  /** The arguments of `client.chat.completions.create`. */
  datatype Request = Request(
    messages: seq<Message>, model: string, temperature: real, maxTokens: nat, topP: int, stream: bool)

  /** The completion endpoint. Its answers come from `service`, a function of the
      request and of how many requests were sent before it; `sent` records the
      requests in order. */
  class CompletionsClient {
    const service: (Request, nat) -> ApiOutcome
    var sent: seq<Request>

    constructor (service: (Request, nat) -> ApiOutcome)
      ensures this.service == service && sent == []
    {
      this.service := service;
      sent := [];
    }

    method Create(request: Request) returns (outcome: ApiOutcome)
      modifies this
      ensures sent == old(sent) + [request]
      ensures outcome == service(request, |old(sent)|)
    {
      outcome := service(request, |sent|);
      sent := sent + [request];
    }
  }

  /** `GymChatbotAI`: the record, the client, the model name and the prompt are
      fixed at construction. */
  class GymChatbotAI {
    const gymData: GymData
    const client: CompletionsClient
    const model: string
    const systemPrompt: string

    /** Reading the data file and the API key happens outside the model. The
        prompt template's text is given as `wording`; the application's is
        `FitZoneWording`. The prompt is built once, here. */
    constructor (data: GymData, client: CompletionsClient, wording: Wording)
      ensures gymData == data && this.client == client
      ensures model == "llama-3.3-70b-versatile"
      ensures systemPrompt == PromptText(wording, Fields(data))
    {
      gymData := data;
      this.client := client;
      model := "llama-3.3-70b-versatile";
      var prompt := BuildSystemPrompt(wording, data);
      systemPrompt := prompt;
    }

    /** The request `get_response` sends for `userInput`. */
    function RequestFor(userInput: string): Request {
      Request([Message("system", systemPrompt), Message("user", userInput)], model, 0.7, 500, 1, false)
    }

    /** `get_response`: a blank input is answered at once and nothing is sent;
        any other input is sent once, with the stored prompt, and the reply is
        the stripped content or the fallback message. */
    method GetResponse(userInput: string) returns (reply: string)
      modifies client
      ensures IsBlank(userInput) ==> reply == BlankReply && client.sent == old(client.sent)
      ensures !IsBlank(userInput) ==>
        && client.sent == old(client.sent) + [RequestFor(userInput)]
        && reply == Answer(client.service(RequestFor(userInput), |old(client.sent)|))
    {
      if userInput == [] || Strip(userInput, IsPySpace) == [] {
        return BlankReply;
      }
      var outcome := client.Create(RequestFor(userInput));
      if outcome.Returned? && |outcome.choices| > 0 && outcome.choices[0].Some? {
        var content := outcome.choices[0].value;
        reply := Strip(content, IsPySpace);
      } else {
        reply := HiccupReply;
      }
    }
  }
}
