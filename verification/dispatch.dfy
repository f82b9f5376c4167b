/** The "analyze" button: the selected provider's call turned into a result
    string, the substring test that decides whether that string is replaced by
    the offline fallback, and which path the shown text came from. */
module Dispatch {
  import opened Text
  import Keys
  import Describer
  import Fallback

  /** How a remote call ended: an exception with its message, or an HTTP
      response with its status code, its raw text and the part of its JSON
      body the caller reads. */
  datatype Reply<T> = Raised(message: string) | Responded(status: nat, text: string, payload: T)

  /** The word every error string of the two integrations contains. */
  const ErrorWord := "Error"

  const ChatgptNoKey := ErrorWord + ": ChatGPT API key not found."
  const DescriberNoKey := ErrorWord + ": ImageDescriber API key not found."

  /** The ChatGPT integration's result: the message content of a 200
      response, or an error string. */
  function ChatgptResult(apiKey: string, reply: Reply<string>): (r: string)
    ensures apiKey == "" ==> r == ChatgptNoKey
    ensures apiKey != "" && reply.Raised? ==> r == ErrorWord + ": " + reply.message
    ensures apiKey != "" && reply.Responded? && reply.status == 200 ==> r == reply.payload
    ensures apiKey != "" && reply.Responded? && reply.status != 200 ==>
      r == "API " + ErrorWord + " " + Decimal(reply.status) + ": " + reply.text
  {
    if apiKey == "" then ChatgptNoKey
    else match reply
      case Raised(m) => ErrorWord + ": " + m
      case Responded(status, text, content) =>
        if status == 200 then content
        else
          "API " + ErrorWord + " " + Decimal(status) + ": " + text
  }

  /** The ImageDescriber integration's result: the extracted and normalised
      description of a 200 response, or an error string. */
  function DescriberResult(apiKey: string, reply: Reply<map<string, Describer.Json>>,
                           dumps: Describer.Json -> string): (r: string)
    ensures apiKey == "" ==> r == DescriberNoKey
    ensures apiKey != "" && reply.Raised? ==> r == ErrorWord + ": " + reply.message
    ensures apiKey != "" && reply.Responded? && reply.status == 200 ==>
      r == Describer.ResponseText(reply.payload, dumps)
    ensures apiKey != "" && reply.Responded? && reply.status != 200 ==>
      r == "ImageDescriber API " + ErrorWord + " " + Decimal(reply.status) + ": " + reply.text
  {
    if apiKey == "" then DescriberNoKey
    else match reply
      case Raised(m) => ErrorWord + ": " + m
      case Responded(status, text, body) =>
        if status == 200 then Describer.ResponseText(body, dumps)
        else
          "ImageDescriber API " + ErrorWord + " " + Decimal(status) + ": " + text
  }

  /** The test that sends a provider result to the offline fallback: a quota
      marker or "error" in any letter case, or "429" as written. */
  predicate NeedsFallback(result: string) {
    || Contains(Lower(result), "insufficient_quota")
    || Contains(result, "429")
    || Contains(Lower(result), "error")
  }

  /** Any string containing "Error" triggers the fallback. */
  lemma ErrorTriggersFallback(s: string)
    requires Contains(s, "Error")
    ensures NeedsFallback(s)
  {
    ContainsLower(s, "Error");
    assert Lower("Error") == "error";
  }

  /** The test ignores letter case: a result trips it exactly when its
      lower-cased form does. */
  lemma FallbackTestIgnoresCase(result: string)
    ensures NeedsFallback(Lower(result)) <==> NeedsFallback(result)
  {
    LowerLower(result);
    if Contains(result, "429") {
      ContainsLower(result, "429");
      assert Lower("429") == "429";
    }
    if Contains(Lower(result), "429") {
      ContainsUnlowered(result, "429");
    }
  }

  /** A failed call: no key, an exception, or a status other than 200. */
  predicate Failed<T>(apiKey: string, reply: Reply<T>) {
    apiKey == "" || reply.Raised? || reply.status != 200
  }

  /** Every error string the ChatGPT integration returns triggers the
      fallback; a successful reply triggers it exactly when its content
      does. */
  lemma ChatgptFallback(apiKey: string, reply: Reply<string>)
    ensures Failed(apiKey, reply) ==> NeedsFallback(ChatgptResult(apiKey, reply))
    ensures !Failed(apiKey, reply) ==>
      (NeedsFallback(ChatgptResult(apiKey, reply)) <==> NeedsFallback(reply.payload))
  {
    var r := ChatgptResult(apiKey, reply);
    if apiKey == "" {
      ContainsStart(ErrorWord, ": ChatGPT API key not found.");
      ErrorTriggersFallback(r);
    } else if reply.Raised? {
      ContainsStart(ErrorWord, ": " + reply.message);
      assert r == ErrorWord + (": " + reply.message);
      ErrorTriggersFallback(r);
    } else if reply.status != 200 {
      var rest := " " + Decimal(reply.status) + ": " + reply.text;
      assert r == "API " + ErrorWord + rest;
      ContainsMiddle("API ", ErrorWord, rest);
      ErrorTriggersFallback(r);
    }
  }

  /** The same for the ImageDescriber integration. */
  lemma DescriberFallback(apiKey: string, reply: Reply<map<string, Describer.Json>>,
                          dumps: Describer.Json -> string)
    ensures Failed(apiKey, reply) ==> NeedsFallback(DescriberResult(apiKey, reply, dumps))
    ensures !Failed(apiKey, reply) ==>
      (NeedsFallback(DescriberResult(apiKey, reply, dumps)) <==>
       NeedsFallback(Describer.ResponseText(reply.payload, dumps)))
  {
    var r := DescriberResult(apiKey, reply, dumps);
    if apiKey == "" {
      ContainsStart(ErrorWord, ": ImageDescriber API key not found.");
      ErrorTriggersFallback(r);
    } else if reply.Raised? {
      ContainsStart(ErrorWord, ": " + reply.message);
      assert r == ErrorWord + (": " + reply.message);
      ErrorTriggersFallback(r);
    } else if reply.status != 200 {
      var rest := " " + Decimal(reply.status) + ": " + reply.text;
      assert r == "ImageDescriber API " + ErrorWord + rest;
      ContainsMiddle("ImageDescriber API ", ErrorWord, rest);
      ErrorTriggersFallback(r);
    }
  }

  /** Which path produced the text on screen. */
  datatype Source = ByChatgpt | ByDescriber | ByFallback

  datatype Analysis = Analysis(text: string, source: Source)

  /** The selected provider's result string: the one of the integration
      the provider names, which trips the fallback test whenever that
      integration's call failed. */
  function ProviderResult(s: Keys.KeyState, chat: Reply<string>,
                          describer: Reply<map<string, Describer.Json>>,
                          dumps: Describer.Json -> string): (r: string)
    ensures s.provider == Keys.ChatGPT ==> r == ChatgptResult(s.apiKey, chat)
    ensures s.provider == Keys.ImageDescriber ==> r == DescriberResult(s.apiKey, describer, dumps)
    ensures s.provider == Keys.ChatGPT && Failed(s.apiKey, chat) ==> NeedsFallback(r)
    ensures s.provider == Keys.ImageDescriber && Failed(s.apiKey, describer) ==> NeedsFallback(r)
  {
    ChatgptFallback(s.apiKey, chat);
    DescriberFallback(s.apiKey, describer, dumps);
    match s.provider
    case ChatGPT => ChatgptResult(s.apiKey, chat)
    case ImageDescriber => DescriberResult(s.apiKey, describer, dumps)
  }

  /** One press of "analyze" with an image loaded: the provider's result is
      shown unless it trips the fallback test, in which case the offline
      analysis text `fallback` is shown instead. */
  function Analyze(s: Keys.KeyState, chat: Reply<string>,
                   describer: Reply<map<string, Describer.Json>>,
                   dumps: Describer.Json -> string, fallback: string): (a: Analysis)
    ensures a.source == ByFallback <==> NeedsFallback(ProviderResult(s, chat, describer, dumps))
    ensures a.source == ByFallback ==> a.text == fallback
    ensures a.source != ByFallback ==>
      && a.text == ProviderResult(s, chat, describer, dumps)
      && !NeedsFallback(a.text)
      && (a.source == ByChatgpt <==> s.provider == Keys.ChatGPT)
  {
    var result := ProviderResult(s, chat, describer, dumps);
    if NeedsFallback(result) then Analysis(fallback, ByFallback)
    else if s.provider == Keys.ChatGPT then Analysis(result, ByChatgpt)
    else Analysis(result, ByDescriber)
  }

  /** One press of "analyze" with the offline analysis of `info` as the
      fallback: when the provider result trips the test, the text shown is the
      fallback's, which for a zero height is its failure message and
      otherwise states the image's dimensions, size tier and orientation. */
  function AnalyzePhoto(s: Keys.KeyState, chat: Reply<string>,
                        describer: Reply<map<string, Describer.Json>>,
                        dumps: Describer.Json -> string, info: Fallback.ImageInfo,
                        kilobytes: nat -> string, ratio: (nat, nat) -> string): (a: Analysis)
    ensures a.source == ByFallback <==> NeedsFallback(ProviderResult(s, chat, describer, dumps))
    ensures a.source != ByFallback ==> a.text == ProviderResult(s, chat, describer, dumps)
    ensures a.source == ByFallback && info.height == 0 ==> a.text == Fallback.DivisionByZero
    ensures a.source == ByFallback && info.height > 0 ==>
      && Contains(a.text, Fallback.DimensionsLine(info.width, info.height))
      && Contains(a.text, Fallback.QualityLine(Fallback.QualityOf(info.fileSize)))
      && Contains(a.text, Fallback.OrientationLine(Fallback.OrientationOf(info.width, info.height)))
  {
    Analyze(s, chat, describer, dumps, Fallback.ResultText(info, kilobytes, ratio))
  }

  /** A failed call of the selected provider always ends in the fallback. */
  lemma FailedCallFallsBack(s: Keys.KeyState, chat: Reply<string>,
                            describer: Reply<map<string, Describer.Json>>,
                            dumps: Describer.Json -> string, fallback: string)
    requires s.provider == Keys.ChatGPT ==> Failed(s.apiKey, chat)
    requires s.provider == Keys.ImageDescriber ==> Failed(s.apiKey, describer)
    ensures Analyze(s, chat, describer, dumps, fallback) == Analysis(fallback, ByFallback)
  {
    ChatgptFallback(s.apiKey, chat);
    DescriberFallback(s.apiKey, describer, dumps);
  }

  /** Without a key the remote service is never consulted for the text. */
  lemma NoKeyFallsBack(s: Keys.KeyState, chat: Reply<string>,
                       describer: Reply<map<string, Describer.Json>>,
                       dumps: Describer.Json -> string, fallback: string)
    requires s.apiKey == ""
    ensures Analyze(s, chat, describer, dumps, fallback).source == ByFallback
  {
    FailedCallFallsBack(s, chat, describer, dumps, fallback);
  }

  /** The substring test also misfires on a successful description that
      merely mentions the word "error" in any letter case. */
  lemma SuccessMentioningErrorFallsBack(apiKey: string, content: string, text: string)
    requires apiKey != "" && Contains(Lower(content), "error")
    ensures NeedsFallback(ChatgptResult(apiKey, Responded(200, text, content)))
  {
  }
}
