/** The canned-reply responder behind `generateAgentResponse`: an ordered table
    of keyword groups, each with a fixed reply, tried top to bottom on the
    lower-cased input; the first group with a keyword in the input wins and a
    general acknowledgement answers everything else. */
module Responder {
  import opened Text

  /** One row of the table: any of `keywords` occurring in the lower-cased
      input selects `reply` (the source's sentences joined by single spaces). */
  datatype Rule = Rule(keywords: seq<string>, reply: string)

  const Rules: seq<Rule> := [
    Rule(["follow-up", "schedule"], FollowUpReply),
    Rule(["status", "check", "update"], PatientStatusReply),
    Rule(["where", "directions"], WayfindingReply),
    Rule(["billing", "bill"], BillingReply),
    Rule(["visitor", "policy"], VisitorPolicyReply),
    Rule(["wheelchair"], WheelchairReply)
  ]

  /* The replies, each the source's sentences joined by single spaces. */

  const FollowUpReply: string :=
    "I can coordinate that follow-up. Cardiology has openings Tuesday at 10:20 AM and Thursday at 2:40 PM." + " "
    + "Shall I tentatively reserve the Tuesday slot and notify Dr. Velasquez's coordinator?" + " "
    + "I'll also email the appointment summary to the patient once it's confirmed."

  const PatientStatusReply: string :=
    "Emily Chen was transferred to Radiology at 2:05 PM for a CT scan." + " "
    + "Estimated return to room 402 is 3:15 PM. No new alerts noted." + " "
    + "I've flagged this request for the bedside nurse to follow up in person."

  const WayfindingReply: string :=
    "From reception, take Elevators B to Level 3. Radiology is the second door on the right past the mural." + " "
    + "I've printed a visitor pass to pick up at the front desk kiosk." + " "
    + "Let me know if you need wheelchair assistance en route."

  const BillingReply: string :=
    "Billing consultations are available in Suite 210 from 8 AM to 6 PM." + " "
    + "I can connect the visitor with Melissa (Patient Accounts) or send them a digital estimate." + " "
    + "Would you like me to schedule a call or prepare an explanation of benefits packet?"

  const VisitorPolicyReply: string :=
    "Pediatric unit allows two visitors per patient with badge exchange. Quiet hours begin at 8 PM." + " "
    + "Siblings under 12 need supervisor approval; I can request that now." + " "
    + "Guest Wi-Fi and parking validations are available at the family resource desk."

  const WheelchairReply: string :=
    "I've dispatched transport team member Jordan to the lobby with a wheelchair. ETA 5 minutes." + " "
    + "I'll update the patient's chart that mobility assistance was provided."

  /** The reply when no keyword occurs. */
  const Fallback: string :=
    "Thanks for the update. I've logged the request and will coordinate the appropriate team." + " "
    + "If this involves a clinical concern, I can escalate to the charge nurse immediately." + " "
    + "Feel free to add more details or share the patient's MRN for a deeper chart review."

  /* The replies are told apart by two characters near their ends:
     the next-to-last and the fourth-from-last. */

  lemma RuleReplyEnding0()
    ensures var r := Rules[0].reply; |r| >= 4 && r[|r| - 2] == 'd' && r[|r| - 4] == 'm'
  {
  }

  lemma RuleReplyEnding1()
    ensures var r := Rules[1].reply; |r| >= 4 && r[|r| - 2] == 'n' && r[|r| - 4] == 's'
  {
  }

  lemma RuleReplyEnding2()
    ensures var r := Rules[2].reply; |r| >= 4 && r[|r| - 2] == 'e' && r[|r| - 4] == 'u'
  {
  }

  lemma RuleReplyEnding3()
    ensures var r := Rules[3].reply; |r| >= 4 && r[|r| - 2] == 't' && r[|r| - 4] == 'k'
  {
  }

  lemma RuleReplyEnding4()
    ensures var r := Rules[4].reply; |r| >= 4 && r[|r| - 2] == 'k' && r[|r| - 4] == 'e'
  {
  }

  lemma RuleReplyEnding5()
    ensures var r := Rules[5].reply; |r| >= 4 && r[|r| - 2] == 'd' && r[|r| - 4] == 'd'
  {
  }

  lemma FallbackEnding()
    ensures |Fallback| >= 4 && Fallback[|Fallback| - 2] == 'w' && Fallback[|Fallback| - 4] == 'i'
  {
  }

  /** Every rule has its own reply, distinct from the fallback, so the reply
      tells which rule fired. */
  function Tag(r: string): (char, char) {
    if |r| >= 4 then (r[|r| - 2], r[|r| - 4]) else (' ', ' ')
  }

  lemma RuleTags()
    ensures forall i :: 0 <= i < |Rules| ==> Tag(Rules[i].reply) == [('d', 'm'), ('n', 's'), ('e', 'u'), ('t', 'k'), ('k', 'e'), ('d', 'd')][i]
  {
    RuleReplyEnding0(); RuleReplyEnding1(); RuleReplyEnding2();
    RuleReplyEnding3(); RuleReplyEnding4(); RuleReplyEnding5();
  }

  lemma RepliesDistinct()
    ensures forall i, j :: 0 <= i < |Rules| && 0 <= j < |Rules| && i != j ==> Rules[i].reply != Rules[j].reply
    ensures forall i :: 0 <= i < |Rules| ==> Rules[i].reply != Fallback
  {
    FallbackEnding();
    RuleTags();
    assert Tag(Fallback) == ('w', 'i');
  }

  predicate MatchesAny(message: string, keywords: seq<string>) {
    exists k | 0 <= k < |keywords| :: Includes(message, keywords[k])
  }

  /** The index of the first rule with a keyword in `message`, if any. */
  function FirstMatch(rules: seq<Rule>, message: string): (r: Match)
    ensures r.MatchAt? ==> r.index < |rules| && MatchesAny(message, rules[r.index].keywords)
    ensures r.MatchAt? ==> forall j :: 0 <= j < r.index ==> !MatchesAny(message, rules[j].keywords)
    ensures r.NoMatch? <==> forall j :: 0 <= j < |rules| ==> !MatchesAny(message, rules[j].keywords)
  {
    if rules == [] then NoMatch
    else if MatchesAny(message, rules[0].keywords) then MatchAt(0)
    else match FirstMatch(rules[1..], message)
      case NoMatch => NoMatch
      case MatchAt(i) => MatchAt(i + 1)
  }

  datatype Match = NoMatch | MatchAt(index: nat)

  /** `generateAgentResponse(input)`: the reply of the first rule that matches
      the lower-cased input, or the fallback. */
  function GenerateAgentResponse(input: string): string {
    match FirstMatch(Rules, Lower(input))
    case MatchAt(i) => Rules[i].reply
    case NoMatch => Fallback
  }

  /** Priority: the reply of rule k is returned exactly when one of rule k's
      keywords occurs in the lower-cased input and none of an earlier rule's does. */
  lemma ReplyOfRule(input: string, k: nat)
    requires k < |Rules|
    ensures GenerateAgentResponse(input) == Rules[k].reply
      <==> MatchesAny(Lower(input), Rules[k].keywords)
           && forall j :: 0 <= j < k ==> !MatchesAny(Lower(input), Rules[j].keywords)
  {
    RepliesDistinct();
  }

  /** The fallback answers exactly the inputs that contain none of the keywords. */
  lemma FallbackIffNoKeyword(input: string)
    ensures GenerateAgentResponse(input) == Fallback
      <==> forall j :: 0 <= j < |Rules| ==> !MatchesAny(Lower(input), Rules[j].keywords)
  {
    RepliesDistinct();
  }

  /** Case-insensitive: inputs that differ only in the case of ASCII letters get
      the same reply, and so does the lower-cased input itself. */
  lemma ReplyIgnoresCase(a: string, b: string)
    requires |a| == |b| && forall i :: 0 <= i < |a| ==> ToLower(a[i]) == ToLower(b[i])
    ensures GenerateAgentResponse(a) == GenerateAgentResponse(b)
    ensures GenerateAgentResponse(Lower(a)) == GenerateAgentResponse(a)
  {
    assert Lower(a) == Lower(b);
    LowerIdempotent(a);
  }

  /** The source's chain of `if` tests with its keywords spelled out, each
      branch answering with the corresponding row's reply. */
  function IfChainReply(input: string): string {
    var message := Lower(input);
    if Includes(message, "follow-up") || Includes(message, "schedule") then Rules[0].reply
    else if Includes(message, "status") || Includes(message, "check") || Includes(message, "update") then Rules[1].reply
    else if Includes(message, "where") || Includes(message, "directions") then Rules[2].reply
    else if Includes(message, "billing") || Includes(message, "bill") then Rules[3].reply
    else if Includes(message, "visitor") || Includes(message, "policy") then Rules[4].reply
    else if Includes(message, "wheelchair") then Rules[5].reply
    else Fallback
  }

  /** The keyword groups of the table, spelled out as the source tests them. */
  lemma RuleTests(message: string)
    ensures MatchesAny(message, Rules[0].keywords) <==> Includes(message, "follow-up") || Includes(message, "schedule")
    ensures MatchesAny(message, Rules[1].keywords) <==> Includes(message, "status") || Includes(message, "check") || Includes(message, "update")
    ensures MatchesAny(message, Rules[2].keywords) <==> Includes(message, "where") || Includes(message, "directions")
    ensures MatchesAny(message, Rules[3].keywords) <==> Includes(message, "billing") || Includes(message, "bill")
    ensures MatchesAny(message, Rules[4].keywords) <==> Includes(message, "visitor") || Includes(message, "policy")
    ensures MatchesAny(message, Rules[5].keywords) <==> Includes(message, "wheelchair")
  {
    var ks := Rules[0].keywords;
    assert ks[0] == "follow-up" && ks[1] == "schedule";
    ks := Rules[1].keywords;
    assert ks[0] == "status" && ks[1] == "check" && ks[2] == "update";
    ks := Rules[2].keywords;
    assert ks[0] == "where" && ks[1] == "directions";
    ks := Rules[3].keywords;
    assert ks[0] == "billing" && ks[1] == "bill";
    ks := Rules[4].keywords;
    assert ks[0] == "visitor" && ks[1] == "policy";
    ks := Rules[5].keywords;
    assert ks[0] == "wheelchair";
  }

  /** The rule table answers every input as the `if` chain does. */
  lemma TableAgreesWithIfChain(input: string)
    ensures GenerateAgentResponse(input) == IfChainReply(input)
  {
    var message := Lower(input);
    RuleTests(message);
    if MatchesAny(message, Rules[0].keywords) {
      ReplyOfRule(input, 0);
    } else if MatchesAny(message, Rules[1].keywords) {
      ReplyOfRule(input, 1);
    } else if MatchesAny(message, Rules[2].keywords) {
      ReplyOfRule(input, 2);
    } else if MatchesAny(message, Rules[3].keywords) {
      ReplyOfRule(input, 3);
    } else if MatchesAny(message, Rules[4].keywords) {
      ReplyOfRule(input, 4);
    } else if MatchesAny(message, Rules[5].keywords) {
      ReplyOfRule(input, 5);
    } else {
      FallbackIffNoKeyword(input);
    }
  }

  /** The text "Schedule a follow-up", the label of a quick prompt, gets the
      scheduling offer. */
  lemma ScheduleFollowUpScenario()
    ensures GenerateAgentResponse("Schedule a follow-up") == Rules[0].reply
  {
    var input := "Schedule a follow-up";
    var message := Lower(input);
    assert message[..8] == "schedule";
    assert IsInfixAt(message, "schedule", 0);
    assert Rules[0].keywords[1] == "schedule";
    ReplyOfRule(input, 0);
  }

  /** The message the "Schedule a follow-up" quick prompt sends. */
  const FollowUpPrompt: string :=
    "I need to " + "schedule" + " a follow-up appointment for cardiology next week."

  /** Clicking the "Schedule a follow-up" quick prompt gets the scheduling
      offer. */
  lemma FollowUpPromptScenario()
    ensures GenerateAgentResponse(FollowUpPrompt) == Rules[0].reply
  {
    var pre, keyword := "I need to ", "schedule";
    assert FollowUpPrompt[|pre|..|pre| + |keyword|] == keyword;
    var message := Lower(FollowUpPrompt);
    assert message[|pre|..|pre| + |keyword|] == keyword;
    assert IsInfixAt(message, "schedule", |pre|);
    assert Rules[0].keywords[1] == "schedule";
    ReplyOfRule(FollowUpPrompt, 0);
  }

  /* None of the first five rules' keywords occurs in "wheelchair please":
     each of them but "where" has a letter the input lacks. */

  lemma WheelchairPleaseLacksLetters()
    ensures var s := "wheelchair please";
      'f' !in s && 'd' !in s && 't' !in s && 'k' !in s && 'b' !in s && 'v' !in s && 'o' !in s
  {
  }

  lemma WheelchairPleaseLacksWhere()
    ensures !Includes("wheelchair please", "where")
  {
    var s, tail := "wheelchair please", "heelchair please";
    assert s == "w" + tail;
    assert 'w' !in tail;
    var w := "where";
    forall i | 0 <= i <= |s| - 5 ensures !IsInfixAt(s, w, i) {
      if i == 0 {
        assert s[i..i + 5][3] == s[3] != w[3];
      } else {
        assert s[i..i + 5][0] == s[i] == tail[i - 1] != w[0];
      }
    }
  }

  lemma WheelchairPleaseMissesEarlierRules()
    ensures var s := "wheelchair please";
      !Includes(s, "follow-up") && !Includes(s, "schedule") && !Includes(s, "status")
      && !Includes(s, "check") && !Includes(s, "update") && !Includes(s, "where")
      && !Includes(s, "directions") && !Includes(s, "billing") && !Includes(s, "bill")
      && !Includes(s, "visitor") && !Includes(s, "policy")
  {
    var s := "wheelchair please";
    WheelchairPleaseLacksLetters();
    WheelchairPleaseLacksWhere();
    MissingCharExcludes(s, "follow-up", 'f');
    MissingCharExcludes(s, "schedule", 'd');
    MissingCharExcludes(s, "status", 't');
    MissingCharExcludes(s, "check", 'k');
    MissingCharExcludes(s, "update", 'd');
    MissingCharExcludes(s, "directions", 'd');
    MissingCharExcludes(s, "billing", 'b');
    MissingCharExcludes(s, "bill", 'b');
    MissingCharExcludes(s, "visitor", 'v');
    MissingCharExcludes(s, "policy", 'o');
  }

  /** "wheelchair please" reaches the sixth rule, the wheelchair dispatch. */
  lemma WheelchairScenario()
    ensures GenerateAgentResponse("wheelchair please") == Rules[5].reply
  {
    var s := "wheelchair please";
    assert Lower(s) == s;
    WheelchairPleaseMissesEarlierRules();
    assert IsInfixAt(s, "wheelchair", 0);
    TableAgreesWithIfChain(s);
  }
}
