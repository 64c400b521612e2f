/**
 * The scripted onboarding service: six conversation states advanced in a
 * fixed line that ends in the absorbing state Done, a canned agent text for
 * each state, and the agent message built from that text.
 */
module Onboarding {
  import opened Wrappers
  import opened Types
  import opened Text

  datatype OnboardingState = Start | AwaitingStory | AwaitingPassion | AwaitingIcs | AwaitingRituals | Done

  /** The states in the order the conversation visits them. */
  const Chain: seq<OnboardingState> := [Start, AwaitingStory, AwaitingPassion, AwaitingIcs, AwaitingRituals, Done]

  /** How far along the line a state is. */
  function Rank(s: OnboardingState): (r: nat)
    ensures r < |Chain| && Chain[r] == s
  {
    match s
    case Start => 0
    case AwaitingStory => 1
    case AwaitingPassion => 2
    case AwaitingIcs => 3
    case AwaitingRituals => 4
    case Done => 5
  }

  /** `nextOnboardingState`: every state but Done moves one place along the
      line; Done stays where it is. */
  function Next(s: OnboardingState): (r: OnboardingState)
    ensures s != Done ==> Rank(r) == Rank(s) + 1
    ensures s == Done ==> r == Done
  {
    match s
    case Start => AwaitingStory
    case AwaitingStory => AwaitingPassion
    case AwaitingPassion => AwaitingIcs
    case AwaitingIcs => AwaitingRituals
    case AwaitingRituals => Done
    case Done => Done
  }

  /** The record key the source uses for each state. */
  function Key(s: OnboardingState): string
  {
    match s
    case Start => "START"
    case AwaitingStory => "AWAITING_STORY"
    case AwaitingPassion => "AWAITING_PASSION"
    case AwaitingIcs => "AWAITING_ICS"
    case AwaitingRituals => "AWAITING_RITUALS"
    case Done => "DONE"
  }

  /** The state a record key names, if any. */
  function StateOfKey(k: string): (r: Option<OnboardingState>)
    ensures r.Some? ==> Key(r.value) == k
  {
    if k == "START" then Some(Start)
    else if k == "AWAITING_STORY" then Some(AwaitingStory)
    else if k == "AWAITING_PASSION" then Some(AwaitingPassion)
    else if k == "AWAITING_ICS" then Some(AwaitingIcs)
    else if k == "AWAITING_RITUALS" then Some(AwaitingRituals)
    else if k == "DONE" then Some(Done)
    else None
  }

  /** Every state's key names that state again, so the keys are distinct. */
  lemma KeyRoundTrip(s: OnboardingState)
    ensures StateOfKey(Key(s)) == Some(s)
  {
  }

  // The canned agent texts, one per state.
  const StartText := "Initializing sync... I am the Saga Synchronizer. To calibrate your Operator Profile, I need to understand your core objective. \n    \nBrief me on your professional status. (e.g., your major, your year, and your career trajectory)."
  const AwaitingStoryText := "Acknowledged. Now, define your primary operational passion. This data is critical. Select your classification:\n\n1.  **Exploratory**: (Evaluating multiple domains)\n2.  **Domain-Focused**: (Passionate about your major, exploring applications)\n3.  **Industry-Focused**: (e.g., 'Targeting Biotech/Game Design')\n4.  **Vector-Specific**: (e.g., 'Objective is Technical Advisor for a VC firm')"
  const AwaitingPassionText := "Affirmative. To integrate your directives and deadlines, I require access to your calendar data stream. \n    \nPlease upload your secure iCal (.ics) file from your primary scheduling platform (e.g., Canvas, Google Calendar)."
  const AwaitingIcsText := "Data stream locked. Final query: What are your daily operational rituals? \n    \n(e.g., 'Physical conditioning for 1 hour,' 'Data ingest for 30 mins,' 'Unit maintenance')."
  const AwaitingRitualsText := "Operator Profile calibrated and stored on the network. Your initial 'Active Directives' (your 9-5 schedule) will be compiled by the Saga Core Agent each morning. Welcome, Operator."
  const DoneText := "I have all the required data, Operator. You are cleared to begin."

  /** `responses[state]`: the canned agent text of each state. */
  function Response(s: OnboardingState): string
  {
    match s
    case Start => StartText
    case AwaitingStory => AwaitingStoryText
    case AwaitingPassion => AwaitingPassionText
    case AwaitingIcs => AwaitingIcsText
    case AwaitingRituals => AwaitingRitualsText
    case Done => DoneText
  }

  /** `responses[key]` for an arbitrary key, as a JavaScript record lookup:
      undefined (None) for a key that names no state. */
  function ResponseForKey(k: string): (r: Option<string>)
    ensures r.Some? <==> StateOfKey(k).Some?
    ensures r.Some? ==> r.value == Response(StateOfKey(k).value)
  {
    match StateOfKey(k)
    case Some(s) => Some(Response(s))
    case None => None
  }

  /** The empty key has no canned text. */
  lemma EmptyKeyHasNoResponse()
    ensures ResponseForKey("") == None
  {
  }

  /** `getOnboardingResponse(state)` with the clock reading `now`: an agent
      message carrying the state's text, identified by "agent-" and the clock. */
  function GetOnboardingResponse(s: OnboardingState, now: nat): (m: ChatMessage)
    ensures m.sender == Agent && m.text == Response(s)
    ensures StartsWith(m.id, "agent-") && m.id[|"agent-"|..] == NatToString(now)
  {
    ChatMessage("agent-" + NatToString(now), Agent, Response(s))
  }

  /** Messages built at different clock readings have different ids. */
  lemma ResponseIdsDistinct(s: OnboardingState, t: OnboardingState, now1: nat, now2: nat)
    requires now1 != now2
    ensures GetOnboardingResponse(s, now1).id != GetOnboardingResponse(t, now2).id
  {
    PrintedInjective(now1, now2);
  }

  // ---------------------------------------------------------------------------
  // Properties of the progression

  /** `k` applications of Next. */
  function Iterate(s: OnboardingState, k: nat): OnboardingState
    decreases k
  {
    if k == 0 then s else Iterate(Next(s), k - 1)
  }

  /** Done is absorbing: once reached it is never left. */
  lemma {:induction false} DoneAbsorbing(k: nat)
    ensures Next(Done) == Done && Iterate(Done, k) == Done
  {
    if k > 0 {
      DoneAbsorbing(k - 1);
    }
  }

  /** Done is the only fixed point of Next. */
  lemma OnlyDoneIsFixed(s: OnboardingState)
    ensures Next(s) == s <==> s == Done
  {
  }

  /** After k steps the rank has grown by k, capped at Done's rank. */
  lemma {:induction false} IterateRank(s: OnboardingState, k: nat)
    ensures Rank(Iterate(s, k)) == if Rank(s) + k < 5 then Rank(s) + k else 5
    decreases k
  {
    if k > 0 {
      IterateRank(Next(s), k - 1);
    }
  }

  /** The conversation visits exactly the chain, in order, from Start. */
  lemma ChainFromStart(i: nat)
    requires i < |Chain|
    ensures Iterate(Start, i) == Chain[i]
  {
    IterateRank(Start, i);
  }

  /** From Start exactly five steps reach Done: four do not. */
  lemma FiveStepsFromStart()
    ensures Iterate(Start, 5) == Done
    ensures forall k :: 0 <= k < 5 ==> Iterate(Start, k) != Done
  {
    IterateRank(Start, 5);
    forall k | 0 <= k < 5 ensures Iterate(Start, k) != Done {
      IterateRank(Start, k);
    }
  }

  /** From any state, at most five steps reach Done. */
  lemma AtMostFiveSteps(s: OnboardingState)
    ensures Iterate(s, 5) == Done
    ensures Iterate(s, 5 - Rank(s)) == Done
  {
    IterateRank(s, 5);
    IterateRank(s, 5 - Rank(s));
  }

  /** No state is revisited on the way to Done. */
  lemma NoRevisit(s: OnboardingState, i: nat, j: nat)
    requires i < j <= 5 - Rank(s)
    ensures Iterate(s, i) != Iterate(s, j)
  {
    IterateRank(s, i);
    IterateRank(s, j);
  }
}
