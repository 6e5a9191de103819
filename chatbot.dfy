/** The rule-based engine of chatbot.py (class `GymChatbot`): a fixed keyword
    catalog, a first-match intent classifier over normalized tokens, and one
    reply template per intent filled from the facility record. */
module Chatbot {
  import opened Strings
  import opened Facility
  import opened Normalizer

  datatype Intent = Membership | Trainer | Timing | Facilities | Classes | Contact | Greeting | Thanks | Unknown

  /** One entry of `self.patterns`: an intent and its keyword phrases. */
  datatype Rule = Rule(intent: Intent, keywords: seq<string>)

  /** `self.patterns`, in the insertion order the classifier iterates. */
  const Patterns: seq<Rule> := [
    Rule(Membership, ["membership", "member", "plan", "subscription", "price", "cost", "fee", "package"]),
    Rule(Trainer, ["trainer", "coach", "personal training", "pt", "instructor"]),
    Rule(Timing, ["time", "timing", "hours", "open", "close", "schedule", "when"]),
    Rule(Facilities, ["facility", "facilities", "equipment", "amenity", "amenities", "what available"]),
    Rule(Classes, ["class", "classes", "group", "session", "workout"]),
    Rule(Contact, ["contact", "phone", "email", "address", "location", "reach"]),
    Rule(Greeting, ["hi", "hello", "hey", "greetings", "good morning", "good afternoon"]),
    Rule(Thanks, ["thanks", "thank you", "appreciate", "grateful"])
  ]

  // ---------------------------------------------------------------------------
  // Classification

  /** Some token of the normalized keyword is among the input tokens. The
      normalizer is a parameter: `detect_intent` passes `preprocess_text`. */
  predicate KeywordMatches(keyword: string, tokens: seq<string>, normalize: string -> seq<string>) {
    exists kt :: kt in normalize(keyword) && kt in tokens
  }

  predicate RuleMatches(rule: Rule, tokens: seq<string>, normalize: string -> seq<string>) {
    exists k :: k in rule.keywords && KeywordMatches(k, tokens, normalize)
  }

  /** Rule `i` matches and no rule before it does. */
  predicate IsFirstHit(rules: seq<Rule>, tokens: seq<string>, normalize: string -> seq<string>, i: int) {
    && 0 <= i < |rules|
    && RuleMatches(rules[i], tokens, normalize)
    && forall j :: 0 <= j < i ==> !RuleMatches(rules[j], tokens, normalize)
  }

  /** The intent of the first matching rule, `Unknown` when none matches. */
  function FirstMatch(rules: seq<Rule>, tokens: seq<string>, normalize: string -> seq<string>): Intent
    decreases |rules|
  {
    if rules == [] then Unknown
    else if RuleMatches(rules[0], tokens, normalize) then rules[0].intent
    else FirstMatch(rules[1..], tokens, normalize)
  }

  /** `self.preprocess_text` as a function value. */
  function PreprocessWith(lemmatize: string -> string): string -> seq<string> {
    text => Preprocess(text, lemmatize)
  }

  /** `detect_intent`. */
  function Classify(userInput: string, lemmatize: string -> string): Intent {
    FirstMatch(Patterns, Preprocess(userInput, lemmatize), PreprocessWith(lemmatize))
  }

  /** The first matching rule decides; earlier rules win ties. */
  lemma {:induction false} FirstMatchFirstHit(rules: seq<Rule>, tokens: seq<string>, normalize: string -> seq<string>, i: int)
    requires IsFirstHit(rules, tokens, normalize, i)
    ensures FirstMatch(rules, tokens, normalize) == rules[i].intent
    decreases i
  {
    if i > 0 {
      assert !RuleMatches(rules[0], tokens, normalize);
      assert forall j :: 0 <= j < i - 1 ==> rules[1..][j] == rules[j + 1];
      FirstMatchFirstHit(rules[1..], tokens, normalize, i - 1);
    }
  }

  /** With no matching rule the result is `Unknown`. */
  lemma {:induction false} FirstMatchNoHit(rules: seq<Rule>, tokens: seq<string>, normalize: string -> seq<string>)
    requires forall j :: 0 <= j < |rules| ==> !RuleMatches(rules[j], tokens, normalize)
    ensures FirstMatch(rules, tokens, normalize) == Unknown
    decreases |rules|
  {
    if rules != [] {
      assert forall j :: 0 <= j < |rules| - 1 ==> rules[1..][j] == rules[j + 1];
      FirstMatchNoHit(rules[1..], tokens, normalize);
    }
  }

  /** Either no rule matches, or there is a first one. */
  lemma {:induction false} NoHitOrFirstHit(rules: seq<Rule>, tokens: seq<string>, normalize: string -> seq<string>)
    ensures (forall j :: 0 <= j < |rules| ==> !RuleMatches(rules[j], tokens, normalize))
            || exists i :: IsFirstHit(rules, tokens, normalize, i)
    decreases |rules|
  {
    if rules != [] && !RuleMatches(rules[0], tokens, normalize) {
      var tail := rules[1..];
      NoHitOrFirstHit(tail, tokens, normalize);
      assert forall j :: 0 <= j < |tail| ==> tail[j] == rules[j + 1];
      if exists i :: IsFirstHit(tail, tokens, normalize, i) {
        var i :| IsFirstHit(tail, tokens, normalize, i);
        assert IsFirstHit(rules, tokens, normalize, i + 1);
      } else {
        forall j | 0 <= j < |rules| ensures !RuleMatches(rules[j], tokens, normalize) {
          if j > 0 { assert rules[j] == tail[j - 1]; }
        }
      }
    } else if rules != [] {
      assert IsFirstHit(rules, tokens, normalize, 0);
    }
  }

  /** When no rule carries `Unknown`, the result is `Unknown` exactly when no rule
      matches, and otherwise it is the intent of the first rule that does. */
  lemma FirstMatchSpec(rules: seq<Rule>, tokens: seq<string>, normalize: string -> seq<string>)
    requires forall j :: 0 <= j < |rules| ==> rules[j].intent != Unknown
    ensures FirstMatch(rules, tokens, normalize) == Unknown <==>
            forall j :: 0 <= j < |rules| ==> !RuleMatches(rules[j], tokens, normalize)
    ensures FirstMatch(rules, tokens, normalize) != Unknown ==>
            exists i :: IsFirstHit(rules, tokens, normalize, i) && FirstMatch(rules, tokens, normalize) == rules[i].intent
  {
    NoHitOrFirstHit(rules, tokens, normalize);
    if exists i :: IsFirstHit(rules, tokens, normalize, i) {
      var i :| IsFirstHit(rules, tokens, normalize, i);
      FirstMatchFirstHit(rules, tokens, normalize, i);
    } else {
      FirstMatchNoHit(rules, tokens, normalize);
    }
  }

  lemma CatalogHasNoUnknown()
    ensures forall j :: 0 <= j < |Patterns| ==> Patterns[j].intent != Unknown
  {
  }

  /** `detect_intent` returns the intent of the first catalog entry, in catalog
      order, with a keyword token among the input tokens; and `'unknown'` exactly
      when no token of any keyword of any intent occurs among them. */
  lemma ClassifySpec(userInput: string, lemmatize: string -> string)
    ensures var tokens, normalize := Preprocess(userInput, lemmatize), PreprocessWith(lemmatize);
            && (Classify(userInput, lemmatize) == Unknown <==>
                forall j :: 0 <= j < |Patterns| ==> !RuleMatches(Patterns[j], tokens, normalize))
            && (Classify(userInput, lemmatize) != Unknown ==>
                exists i :: IsFirstHit(Patterns, tokens, normalize, i) && Classify(userInput, lemmatize) == Patterns[i].intent)
  {
    CatalogHasNoUnknown();
    FirstMatchSpec(Patterns, Preprocess(userInput, lemmatize), PreprocessWith(lemmatize));
  }

  /** Empty, blank or punctuation-only input yields no tokens and so `'unknown'`. */
  lemma NoAlnumIsUnknown(userInput: string, lemmatize: string -> string)
    requires forall i :: 0 <= i < |userInput| ==> !IsAsciiAlnum(userInput[i])
    ensures Preprocess(userInput, lemmatize) == []
    ensures Classify(userInput, lemmatize) == Unknown
  {
    PreprocessEmptyIff(userInput, lemmatize);
    FirstMatchNoHit(Patterns, [], PreprocessWith(lemmatize));
  }

  /** A keyword fires on any one of its words: if a word of a keyword of entry `i`
      is a word of the input and no earlier entry matches, entry `i` wins. */
  lemma AnyWordOfKeywordFires(userInput: string, lemmatize: string -> string, i: nat, keyword: string, w: string)
    requires i < |Patterns| && keyword in Patterns[i].keywords
    requires w in Tokenize(Clean(keyword)) && w in Tokenize(Clean(userInput))
    requires forall j :: 0 <= j < i ==> !RuleMatches(Patterns[j], Preprocess(userInput, lemmatize), PreprocessWith(lemmatize))
    ensures Classify(userInput, lemmatize) == Patterns[i].intent
  {
    var tokens, normalize := Preprocess(userInput, lemmatize), PreprocessWith(lemmatize);
    LemmatizeAllTokens(Tokenize(Clean(userInput)), lemmatize, lemmatize(w));
    LemmatizeAllTokens(Tokenize(Clean(keyword)), lemmatize, lemmatize(w));
    assert lemmatize(w) in normalize(keyword);
    assert KeywordMatches(keyword, tokens, normalize);
    FirstMatchFirstHit(Patterns, tokens, normalize, i);
  }

  /** The first word of a multi-word keyword `w + rest` fires on its own. */
  lemma LeadingWordFires(userInput: string, lemmatize: string -> string, i: nat, w: string, rest: string)
    requires i < |Patterns| && w + rest in Patterns[i].keywords
    requires IsWord(w) && (rest == [] || IsPySpace(rest[0]))
    requires AllClean(w + rest)
    requires w in Tokenize(Clean(userInput))
    requires forall j :: 0 <= j < i ==> !RuleMatches(Patterns[j], Preprocess(userInput, lemmatize), PreprocessWith(lemmatize))
    ensures Classify(userInput, lemmatize) == Patterns[i].intent
  {
    CleanFixesClean(w + rest);
    TokenizeLeadingWord(w, rest);
    assert w in Tokenize(Clean(w + rest));
    AnyWordOfKeywordFires(userInput, lemmatize, i, w + rest, w);
  }

  /** The last word of a multi-word keyword `first + w` fires on its own. */
  lemma TrailingWordFires(userInput: string, lemmatize: string -> string, i: nat, first: string, w: string)
    requires i < |Patterns| && first + " " + w in Patterns[i].keywords
    requires IsWord(first) && IsWord(w)
    requires AllClean(first + " " + w)
    requires w in Tokenize(Clean(userInput))
    requires forall j :: 0 <= j < i ==> !RuleMatches(Patterns[j], Preprocess(userInput, lemmatize), PreprocessWith(lemmatize))
    ensures Classify(userInput, lemmatize) == Patterns[i].intent
  {
    var phrase := first + " " + w;
    CleanFixesClean(phrase);
    TokenizeLeadingWord(first, " " + w);
    AppendAssoc(first, " ", w);
    TokenizeLeadingSpace(' ', w);
    TokenizeLeadingWord(w, "");
    assert w + "" == w;
    assert w in Tokenize(Clean(phrase));
    AnyWordOfKeywordFires(userInput, lemmatize, i, phrase, w);
  }

  predicate AllClean(s: string) {
    forall i :: 0 <= i < |s| ==> IsCleanChar(s[i])
  }

  /** Two multi-word keywords of the catalog, split into their words. */
  lemma KeywordSplits()
    ensures "what" + " available" in Patterns[3].keywords && AllClean("what" + " available")
    ensures "thank" + " " + "you" in Patterns[7].keywords && AllClean("thank" + " " + "you")
    ensures IsWord("what") && IsPySpace(" available"[0]) && IsWord("thank") && IsWord("you")
  {
    assert Patterns[3].keywords[5] == "what" + " available";
    assert Patterns[7].keywords[1] == "thank" + " " + "you";
  }

  /** The word `what` alone selects `facilities` (through the keyword `what available`)
      unless a membership, trainer or timing keyword token is present. */
  lemma WhatMeansFacilities(userInput: string, lemmatize: string -> string)
    requires "what" in Tokenize(Clean(userInput))
    requires forall j :: 0 <= j < 3 ==> !RuleMatches(Patterns[j], Preprocess(userInput, lemmatize), PreprocessWith(lemmatize))
    ensures Classify(userInput, lemmatize) == Facilities
  {
    KeywordSplits();
    LeadingWordFires(userInput, lemmatize, 3, "what", " available");
  }

  /** The word `you` alone selects `thanks` (through the keyword `thank you`)
      when no earlier entry matches. */
  lemma YouMeansThanks(userInput: string, lemmatize: string -> string)
    requires "you" in Tokenize(Clean(userInput))
    requires forall j :: 0 <= j < 7 ==> !RuleMatches(Patterns[j], Preprocess(userInput, lemmatize), PreprocessWith(lemmatize))
    ensures Classify(userInput, lemmatize) == Thanks
  {
    KeywordSplits();
    TrailingWordFires(userInput, lemmatize, 7, "thank", "you");
  }

  // ---------------------------------------------------------------------------
  // Rendering

  const GreetingReply: string :=
    "Hello! \U{1F44B} Welcome to FitZone Fitness Center! How can I help you today? You can ask me about memberships, trainers, timings, facilities, or classes."
  const ThanksReply: string :=
    "You're welcome! \U{1F60A} Feel free to ask anything else about our gym. Stay fit! \U{1F4AA}"
  const TrainersUnavailableReply: string := "Currently, personal trainers are not available."
  const HelpReply: string :=
    "I'm not sure I understand. You can ask me about:\n\U{2022} Membership plans\n\U{2022} Personal trainers\n\U{2022} Gym timings\n\U{2022} Facilities & equipment\n\U{2022} Classes\n\U{2022} Contact information"
  const MembershipHeader: string := "\U{1F4AA} **Membership Plans:**\n\n"

  /** The fields the branch for `intent` reads by direct indexing (a missing one raises). */
  predicate CanRender(intent: Intent, d: GymData) {
    match intent
    case Membership => d.membership.Some? && d.membership.value.types.Some?
    case Trainer =>
      && d.trainers.Some? && d.trainers.value.available.Some?
      && (d.trainers.value.available.value ==>
            var t := d.trainers.value;
            t.info.Some? && t.specializations.Some? && t.pricing.Some? && t.booking.Some?)
    case Timing =>
      && d.timings.Some?
      && d.timings.value.weekdays.Some? && d.timings.value.weekends.Some? && d.timings.value.holidays.Some?
    case Facilities => d.facilities.Some? && d.facilities.value.equipment.Some? && d.facilities.value.amenities.Some?
    case Classes => d.facilities.Some? && d.facilities.value.classes.Some?
    case Contact =>
      && d.contact.Some?
      && d.contact.value.phone.Some? && d.contact.value.email.Some? && d.contact.value.address.Some?
    case Greeting => true
    case Thanks => true
    case Unknown => true
  }

  function PlanLine(p: Plan): string {
    "**" + p.name + "** - " + p.price + "/" + p.duration + "\n"
  }

  function FeaturesLine(p: Plan): string {
    "Includes: " + Join(", ", p.features) + "\n\n"
  }

  /** What one plan adds to the membership reply. */
  function PlanBlock(p: Plan): string {
    PlanLine(p) + FeaturesLine(p)
  }

  function TrainerReply(t: TrainerInfo): string
    requires t.info.Some? && t.specializations.Some? && t.pricing.Some? && t.booking.Some?
  {
    "\U{1F3CB}\U{FE0F} **Personal Trainers Available!**\n\n"
      + (t.info.value + "\n\n")
      + ("**Specializations:** " + Join(", ", t.specializations.value) + "\n")
      + ("**Pricing:** " + t.pricing.value + "\n")
      + ("**Booking:** " + t.booking.value)
  }

  function TimingReply(t: TimingInfo): string
    requires t.weekdays.Some? && t.weekends.Some? && t.holidays.Some?
  {
    "\U{1F552} **Gym Timings:**\n\n"
      + ("**Weekdays:** " + t.weekdays.value + "\n")
      + ("**Weekends:** " + t.weekends.value + "\n")
      + ("**Holidays:** " + t.holidays.value)
  }

  function FacilitiesReply(f: FacilityInfo): string
    requires f.equipment.Some? && f.amenities.Some?
  {
    "\U{1F3E2} **Our Facilities:**\n\n"
      + ("**Equipment:** " + Join(", ", f.equipment.value) + "\n\n")
      + ("**Amenities:** " + Join(", ", f.amenities.value))
  }

  function ClassesReply(classes: seq<string>): string {
    "\U{1F3AF} **Available Classes:**\n\n" + Join(", ", classes) + "\n\nAll classes are included in your membership!"
  }

  function ContactReply(c: ContactInfo): string
    requires c.phone.Some? && c.email.Some? && c.address.Some?
  {
    "\U{1F4DE} **Contact Us:**\n\n"
      + ("**Phone:** " + c.phone.value + "\n")
      + ("**Email:** " + c.email.value + "\n")
      + ("**Address:** " + c.address.value)
  }

  /** The reply `get_response` gives for `intent`. */
  function Render(intent: Intent, d: GymData): string
    requires CanRender(intent, d)
  {
    match intent
    case Greeting => GreetingReply
    case Membership => MembershipHeader + ConcatMap(PlanBlock, d.membership.value.types.value)
    case Trainer =>
      if d.trainers.value.available.value then TrainerReply(d.trainers.value) else TrainersUnavailableReply
    case Timing => TimingReply(d.timings.value)
    case Facilities => FacilitiesReply(d.facilities.value)
    case Classes => ClassesReply(d.facilities.value.classes.value)
    case Contact => ContactReply(d.contact.value)
    case Thanks => ThanksReply
    case Unknown => HelpReply
  }

  /** The membership reply holds one block per plan, in stored order: block `i`
      comes after the blocks of the plans before it and before those after it. */
  lemma MembershipListsPlans(d: GymData, i: nat)
    requires CanRender(Membership, d) && i < |d.membership.value.types.value|
    ensures var plans := d.membership.value.types.value;
            Render(Membership, d)
            == MembershipHeader + ConcatMap(PlanBlock, plans[..i]) + PlanBlock(plans[i]) + ConcatMap(PlanBlock, plans[i + 1..])
  {
    var plans := d.membership.value.types.value;
    ConcatMapAt(PlanBlock, plans, i);
    AppendAssoc(MembershipHeader, ConcatMap(PlanBlock, plans[..i]) + PlanBlock(plans[i]), ConcatMap(PlanBlock, plans[i + 1..]));
    AppendAssoc(MembershipHeader, ConcatMap(PlanBlock, plans[..i]), PlanBlock(plans[i]));
  }

  /** The timing reply shows the stored weekday, weekend and holiday hours. */
  lemma TimingShowsHours(d: GymData)
    requires CanRender(Timing, d)
    ensures var t := d.timings.value;
            && Contains(Render(Timing, d), t.weekdays.value)
            && Contains(Render(Timing, d), t.weekends.value)
            && Contains(Render(Timing, d), t.holidays.value)
  {
    var t := d.timings.value;
    var head := "\U{1F552} **Gym Timings:**\n\n";
    var wd, we, ho := t.weekdays.value, t.weekends.value, t.holidays.value;
    var l1, l2 := "**Weekdays:** " + wd + "\n", "**Weekends:** " + we + "\n";
    var l3 := "**Holidays:** " + ho;
    assert Render(Timing, d) == head + l1 + l2 + l3;
    assert OccursAt(Render(Timing, d), wd, |head| + 14);
    assert OccursAt(Render(Timing, d), we, |head| + |l1| + 14);
    assert OccursAt(Render(Timing, d), ho, |head| + |l1| + |l2| + 14);
  }

  /** The greeting, thanks and help replies do not depend on the data, and an
      unavailable trainer service gets the fixed "not available" reply. */
  lemma FixedReplies(d: GymData)
    ensures Render(Greeting, d) == GreetingReply
    ensures Render(Thanks, d) == ThanksReply
    ensures Render(Unknown, d) == HelpReply
    ensures CanRender(Trainer, d) && !d.trainers.value.available.value ==> Render(Trainer, d) == TrainersUnavailableReply
  {
  }

  /** Input without ASCII letters or digits gets the fixed help text. */
  lemma NoAlnumGetsHelp(userInput: string, lemmatize: string -> string, d: GymData)
    requires forall i :: 0 <= i < |userInput| ==> !IsAsciiAlnum(userInput[i])
    ensures CanRender(Classify(userInput, lemmatize), d)
    ensures Render(Classify(userInput, lemmatize), d) == HelpReply
  {
    NoAlnumIsUnknown(userInput, lemmatize);
  }

  /** `any(kt in tokens for kt in keyword_tokens)`. */
  method AnyIn(candidates: seq<string>, tokens: seq<string>) returns (found: bool)
    ensures found <==> exists t :: t in candidates && t in tokens
  {
    var n := 0;
    while n < |candidates|
      invariant 0 <= n <= |candidates|
      invariant forall m :: 0 <= m < n ==> candidates[m] !in tokens
    {
      if candidates[n] in tokens {
        return true;
      }
      n := n + 1;
    }
    return false;
  }

  /** The inner loop of `detect_intent`: some keyword of the entry has a token
      among `tokens`. */
  method AnyKeywordIn(keywords: seq<string>, tokens: seq<string>, normalize: string -> seq<string>) returns (hit: bool)
    ensures hit <==> exists kw :: kw in keywords && KeywordMatches(kw, tokens, normalize)
  {
    var k := 0;
    while k < |keywords|
      invariant 0 <= k <= |keywords|
      invariant forall m :: 0 <= m < k ==> !KeywordMatches(keywords[m], tokens, normalize)
    {
      var keywordTokens := normalize(keywords[k]);
      hit := AnyIn(keywordTokens, tokens);
      if hit {
        assert KeywordMatches(keywords[k], tokens, normalize);
        return;
      }
      k := k + 1;
    }
    hit := false;
  }

  /** The outer loop of `detect_intent`: the catalog in order, returning at the
      first entry that matches. */
  method FindIntent(rules: seq<Rule>, tokens: seq<string>, normalize: string -> seq<string>) returns (intent: Intent)
    ensures intent == FirstMatch(rules, tokens, normalize)
  {
    var i := 0;
    while i < |rules|
      invariant 0 <= i <= |rules|
      invariant forall j :: 0 <= j < i ==> !RuleMatches(rules[j], tokens, normalize)
    {
      var hit := AnyKeywordIn(rules[i].keywords, tokens, normalize);
      if hit {
        FirstMatchFirstHit(rules, tokens, normalize, i);
        return rules[i].intent;
      }
      i := i + 1;
    }
    FirstMatchNoHit(rules, tokens, normalize);
    return Unknown;
  }

  /** `GymChatbot`: the data record and the lemmatizer are fixed at construction;
      no method changes a field. */
  class GymChatbot {
    const gymData: GymData
    const lemmatize: string -> string
    const patterns: seq<Rule> := Patterns

    /** Loading `data_file` and creating the lemmatizer happen outside the model. */
    constructor (data: GymData, lemmatizer: string -> string)
      ensures gymData == data && lemmatize == lemmatizer
    {
      gymData := data;
      lemmatize := lemmatizer;
    }

    /** `preprocess_text`. */
    function PreprocessText(text: string): (tokens: seq<string>)
      ensures tokens == [] <==> forall i :: 0 <= i < |text| ==> !IsAsciiAlnum(text[i])
    {
      PreprocessEmptyIff(text, lemmatize);
      Preprocess(text, lemmatize)
    }

    /** `detect_intent`: the input's tokens against every keyword's tokens, the
        keywords normalized by the same `preprocess_text`. */
    method DetectIntent(userInput: string) returns (intent: Intent)
      ensures intent == Classify(userInput, lemmatize)
    {
      var tokens := PreprocessText(userInput);
      intent := FindIntent(patterns, tokens, PreprocessWith(lemmatize));
    }

    /** `get_response`: the `elif` chain, each branch building its reply by `+=`. */
    method GetResponse(userInput: string) returns (response: string)
      requires CanRender(Classify(userInput, lemmatize), gymData)
      ensures response == Render(Classify(userInput, lemmatize), gymData)
    {
      var intent := DetectIntent(userInput);
      response := Respond(intent);
    }

    /** The `elif` chain of `get_response` on the detected intent. */
    method Respond(intent: Intent) returns (response: string)
      requires CanRender(intent, gymData)
      ensures response == Render(intent, gymData)
    {
      if intent == Greeting {
        return GreetingReply;
      } else if intent == Membership {
        var plans := gymData.membership.value.types.value;
        response := MembershipHeader;
        var i := 0;
        while i < |plans|
          invariant 0 <= i <= |plans|
          invariant response == MembershipHeader + ConcatMap(PlanBlock, plans[..i])
        {
          var plan := plans[i];
          response := response + ("**" + plan.name + "** - " + plan.price + "/" + plan.duration + "\n");
          response := response + ("Includes: " + Join(", ", plan.features) + "\n\n");
          assert plans[..i + 1][..i] == plans[..i];
          AppendAssoc(MembershipHeader + ConcatMap(PlanBlock, plans[..i]), PlanLine(plan), FeaturesLine(plan));
          AppendAssoc(MembershipHeader, ConcatMap(PlanBlock, plans[..i]), PlanBlock(plan));
          i := i + 1;
        }
        assert plans[..i] == plans;
      } else if intent == Trainer {
        var t := gymData.trainers.value;
        if t.available.value {
          response := "\U{1F3CB}\U{FE0F} **Personal Trainers Available!**\n\n";
          response := response + (t.info.value + "\n\n");
          response := response + ("**Specializations:** " + Join(", ", t.specializations.value) + "\n");
          response := response + ("**Pricing:** " + t.pricing.value + "\n");
          response := response + ("**Booking:** " + t.booking.value);
        } else {
          response := TrainersUnavailableReply;
        }
      } else if intent == Timing {
        var t := gymData.timings.value;
        response := "\U{1F552} **Gym Timings:**\n\n";
        response := response + ("**Weekdays:** " + t.weekdays.value + "\n");
        response := response + ("**Weekends:** " + t.weekends.value + "\n");
        response := response + ("**Holidays:** " + t.holidays.value);
      } else if intent == Facilities {
        var f := gymData.facilities.value;
        response := "\U{1F3E2} **Our Facilities:**\n\n";
        response := response + ("**Equipment:** " + Join(", ", f.equipment.value) + "\n\n");
        response := response + ("**Amenities:** " + Join(", ", f.amenities.value));
      } else if intent == Classes {
        var classes := gymData.facilities.value.classes.value;
        response := "\U{1F3AF} **Available Classes:**\n\n";
        response := response + Join(", ", classes);
        response := response + "\n\nAll classes are included in your membership!";
      } else if intent == Contact {
        var c := gymData.contact.value;
        response := "\U{1F4DE} **Contact Us:**\n\n";
        response := response + ("**Phone:** " + c.phone.value + "\n");
        response := response + ("**Email:** " + c.email.value + "\n");
        response := response + ("**Address:** " + c.address.value);
      } else if intent == Thanks {
        return ThanksReply;
      } else {
        return HelpReply;
      }
    }
  }
}
