/** The API-key state of the analyzer window: which provider is selected,
    the single active key slot, the two default keys read from the
    environment at start-up, and the text currently in the key entry field.
    Two handlers change it (applying the entry, switching provider) and one
    classification reads it for the status bar. */
module Keys {
  import opened Text

  datatype Provider = ChatGPT | ImageDescriber

  /** One shared `apiKey` slot serves both providers. */
  datatype KeyState = KeyState(
    provider: Provider,
    apiKey: string,
    defaultChatgpt: string,
    defaultDescriber: string,
    entry: string)

  /** A user-supplied key shorter than this is rejected. */
  const MinKeyLength := 20

  /** The default key configured for provider `p`. */
  function DefaultFor(s: KeyState, p: Provider): string {
    match p
    case ChatGPT => s.defaultChatgpt
    case ImageDescriber => s.defaultDescriber
  }

  /** The state right after start-up: ChatGPT selected, its default key
      active, the entry field empty. */
  function Init(defaultChatgpt: string, defaultDescriber: string): (s: KeyState)
    ensures s.provider == ChatGPT && s.entry == ""
    ensures s.apiKey == DefaultFor(s, ChatGPT)
    ensures s.defaultChatgpt == defaultChatgpt && s.defaultDescriber == defaultDescriber
  {
    KeyState(ChatGPT, defaultChatgpt, defaultChatgpt, defaultDescriber, "")
  }

  /** What the "apply key" handler reported on its status label. */
  datatype UpdateOutcome = Rejected | UsedDefault | KeySet

  datatype Update = Update(state: KeyState, outcome: UpdateOutcome)

  /** The "apply key" handler. The entry text is stripped; the two provider
      branches test "empty" and "too short" in opposite orders, which the
      contract shows makes no difference. */
  function UpdateApiKey(s: KeyState): (r: Update)
    ensures r.outcome == Rejected <==> 0 < |Strip(s.entry)| < MinKeyLength
    ensures r.outcome == UsedDefault <==> Strip(s.entry) == ""
    ensures r.outcome == Rejected ==> r.state == s
    ensures r.outcome == UsedDefault ==> r.state.apiKey == DefaultFor(s, s.provider)
    ensures r.outcome == KeySet ==> r.state.apiKey == Strip(s.entry) && |r.state.apiKey| >= MinKeyLength
    ensures r.state == s.(apiKey := r.state.apiKey)
  {
    var key := Strip(s.entry);
    match s.provider
    case ChatGPT =>
      if |key| < MinKeyLength && key != "" then Update(s, Rejected)
      else if key == "" then Update(s.(apiKey := s.defaultChatgpt), UsedDefault)
      else Update(s.(apiKey := key), KeySet)
    case ImageDescriber =>
      if key == "" then Update(s.(apiKey := s.defaultDescriber), UsedDefault)
      else if |key| < MinKeyLength then Update(s, Rejected)
      else Update(s.(apiKey := key), KeySet)
  }

  /** The radio-button handler, called after the provider variable already
      holds the new choice `p`. It tests the raw entry text, not its
      stripped form. */
  function OnProviderChange(s: KeyState, p: Provider): (r: KeyState)
    ensures r.provider == p
    ensures s.entry == "" ==> r.apiKey == DefaultFor(s, p)
    ensures s.entry != "" ==> r.apiKey == s.apiKey
    ensures r == s.(provider := p, apiKey := r.apiKey)
  {
    var t := s.(provider := p);
    match p
    case ChatGPT => if t.entry == "" then t.(apiKey := t.defaultChatgpt) else t
    case ImageDescriber => if t.entry == "" then t.(apiKey := t.defaultDescriber) else t
  }

  /** Typing into the key entry field. */
  function SetEntry(s: KeyState, text: string): KeyState {
    s.(entry := text)
  }

  /** The status-bar classification. */
  datatype KeyStatus = NoKey | DefaultKey | Connected

  /** Shows a key only when it is longer than 20 characters, and calls it
      the default when it equals the selected provider's default. */
  function Status(s: KeyState): (k: KeyStatus)
    ensures k == NoKey <==> |s.apiKey| <= MinKeyLength
    ensures k == DefaultKey <==> |s.apiKey| > MinKeyLength && s.apiKey == DefaultFor(s, s.provider)
    ensures k == Connected <==> |s.apiKey| > MinKeyLength && s.apiKey != DefaultFor(s, s.provider)
  {
    match s.provider
    case ChatGPT =>
      if s.apiKey != "" && |s.apiKey| > 20 then
        if s.apiKey == s.defaultChatgpt then DefaultKey else Connected
      else NoKey
    case ImageDescriber =>
      if s.apiKey != "" && |s.apiKey| > 20 then
        if s.apiKey == s.defaultDescriber then DefaultKey else Connected
      else NoKey
  }

  /** The user interactions that reach the key state. */
  datatype Event = Type(text: string) | Apply | Select(p: Provider)

  function Step(s: KeyState, e: Event): KeyState {
    match e
    case Type(text) => SetEntry(s, text)
    case Apply => UpdateApiKey(s).state
    case Select(p) => OnProviderChange(s, p)
  }

  function Run(s: KeyState, es: seq<Event>): KeyState
    decreases |es|
  {
    if |es| == 0 then s else Run(Step(s, es[0]), es[1..])
  }

  /** The active key is always one of the two defaults or a stripped
      user key of at least 20 characters. */
  ghost predicate Inv(s: KeyState) {
    || s.apiKey == s.defaultChatgpt
    || s.apiKey == s.defaultDescriber
    || (|s.apiKey| >= MinKeyLength && IsStripped(s.apiKey))
  }

  /** Every event keeps the invariant and never touches the defaults. */
  lemma StepPreservesInv(s: KeyState, e: Event)
    requires Inv(s)
    ensures Inv(Step(s, e))
    ensures Step(s, e).defaultChatgpt == s.defaultChatgpt
    ensures Step(s, e).defaultDescriber == s.defaultDescriber
  {
  }

  /** From start-up, any sequence of interactions keeps the invariant. */
  lemma {:induction false} RunPreservesInv(s: KeyState, es: seq<Event>)
    requires Inv(s)
    ensures Inv(Run(s, es))
    ensures Run(s, es).defaultChatgpt == s.defaultChatgpt
    ensures Run(s, es).defaultDescriber == s.defaultDescriber
    decreases |es|
  {
    if |es| > 0 {
      StepPreservesInv(s, es[0]);
      RunPreservesInv(Step(s, es[0]), es[1..]);
    }
  }

  /** Every state reachable from start-up satisfies the invariant. */
  lemma ReachableInv(dc: string, dd: string, es: seq<Event>)
    ensures Inv(Run(Init(dc, dd), es))
  {
    RunPreservesInv(Init(dc, dd), es);
  }

  /** A key of exactly 20 characters is accepted by the "apply key" handler
      and yet the status bar reports no key. */
  lemma TwentyCharKeyAcceptedButNoKey(s: KeyState)
    requires |Strip(s.entry)| == MinKeyLength
    ensures UpdateApiKey(s).outcome == KeySet
    ensures Status(UpdateApiKey(s).state) == NoKey
  {
  }

  /** Applying an empty entry makes the status depend only on the length of
      the selected provider's default. */
  lemma ApplyEmptyEntryStatus(s: KeyState)
    requires Strip(s.entry) == ""
    ensures Status(UpdateApiKey(s).state) ==
      (if |DefaultFor(s, s.provider)| > MinKeyLength then DefaultKey else NoKey)
  {
  }

  /** A custom key applied for one provider carries over to the other as long
      as the entry field still holds text. */
  lemma CustomKeyCarriesOver(s: KeyState, p: Provider)
    requires UpdateApiKey(s).outcome == KeySet
    ensures OnProviderChange(UpdateApiKey(s).state, p).apiKey == Strip(s.entry)
  {
    assert Strip(s.entry) != "";
  }

  /** A whitespace-only entry is "empty" for the apply handler but not for the
      provider switch: switching keeps the old key, applying installs the
      default. */
  lemma BlankEntryTreatedDifferently(s: KeyState, p: Provider)
    requires s.entry != "" && AllSpace(s.entry)
    ensures OnProviderChange(s, p).apiKey == s.apiKey
    ensures UpdateApiKey(OnProviderChange(s, p)).state.apiKey == DefaultFor(s, p)
  {
  }

  /** Because the slot is shared, text typed but never applied lets the
      ChatGPT default key travel to ImageDescriber, where the status bar then
      calls it a connected custom key. */
  lemma SharedSlotCarriesDefault(dc: string, dd: string, text: string)
    requires |dc| > MinKeyLength && dc != dd && text != ""
    ensures var s := OnProviderChange(SetEntry(Init(dc, dd), text), ImageDescriber);
            s.apiKey == dc && Status(s) == Connected
  {
  }
}
