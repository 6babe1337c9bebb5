/**
 * BaseMessageHandler: the type-membership test and the helpers that forward to
 * the handler context unchanged.
 */
module BaseHandler {
  import opened Host

  /** True iff the message type equals one of the supported type tags. */
  function MatchesType(msgType: string, supportedTypes: seq<string>): (r: bool)
    ensures r <==> exists i :: 0 <= i < |supportedTypes| && supportedTypes[i] == msgType
  {
    msgType in supportedTypes
  }

  /** The answer does not depend on the order of the tags. */
  lemma MatchesTypeIgnoresOrder(msgType: string, s: seq<string>, t: seq<string>)
    requires multiset(s) == multiset(t)
    ensures MatchesType(msgType, s) == MatchesType(msgType, t)
  {
    assert msgType in s <==> msgType in multiset(s);
    assert msgType in t <==> msgType in multiset(t);
  }

  lemma NothingMatchesNoTypes(msgType: string)
    ensures !MatchesType(msgType, [])
  {
  }

  method CallJavaScript(context: HandlerContext, functionName: string, args: seq<Escaped>)
    modifies context
    ensures context.ui == old(context.ui) + [Call(functionName, args)]
    ensures context.requests == old(context.requests)
  {
    context.CallJavaScript(functionName, args);
  }

  /** The context's escaping, applied to the text unchanged. */
  function EscapeJs(text: Text): (e: Escaped)
    ensures e.raw == text
  {
    Escaped(text)
  }

  method ExecuteJavaScript(context: HandlerContext, script: Script)
    modifies context
    ensures context.ui == old(context.ui) + [Execute(script)]
    ensures context.requests == old(context.requests)
  {
    context.ExecuteJavaScriptOnEdt(script);
  }
}
