/**
  The 401 ladder of one HTTP request (pkg/mcp/client.go, `doAuthed`), for any
  token provider and any server, and composed with the OAuth flow.
*/
module TokenLadder {
  import opened Wrappers
  import opened OAuthProtocol
  import opened OAuthInvariant
  import opened OAuthFlow

  const MAX_TOKEN_CYCLES := 4

  /** A response, as far as the ladder looks: its status, 0 for a transport error, and its challenge. */
  datatype Reply = Reply(status: int, stale: bool)

  datatype Attempt = Attempt(token: string, reply: Reply)

  /** What the provider was asked, the challenge as far as it says "expired", and its answer, None for an error. */
  datatype Question = Question(rejected: string, stale: bool, answer: Option<string>)

  /** Everything asked of the provider, and everything sent to the server, for one request. */
  class Talk {
    ghost var asked: seq<Question>
    ghost var sent: seq<Attempt>

    constructor ()
      ensures asked == [] && sent == []
    {
      asked, sent := [], [];
    }
  }

  datatype Final = ProviderError | TransportError | Response(status: int)

  /** Who supplies tokens: nobody, a fixed credential, the OAuth flow, or any other implementation. */
  datatype Tokens = NoTokens | Static(bearer: string) | OAuth(flow: Flow) | Anything

  ghost predicate Ready(tokens: Tokens)
    reads if tokens.OAuth? then {tokens.flow, tokens.flow.w} else {}
  {
    tokens.OAuth? ==> tokens.flow.Valid() && tokens.flow.Self().pc.Idle?
  }

  /** What the client may complain about: nothing yet, the anonymous marker, or a token it was given. */
  ghost predicate MayReject(tokens: Tokens, rejected: string)
    reads if tokens.OAuth? then {tokens.flow, tokens.flow.w} else {}
  {
    tokens.OAuth? ==> rejected == "" || rejected == "-" || rejected in tokens.flow.w.s.srv.accessIssued
  }

  /** How far a refused token is from the end of the ladder. */
  ghost function RankOf(tokens: Tokens, token: string): (r: nat)
    requires Ready(tokens) && tokens.OAuth?
    reads if tokens.OAuth? then {tokens.flow, tokens.flow.w} else {}
    ensures r <= 2
  {
    tokens.flow.Rank(token)
  }

  /** Client.token: the provider's answer, None for its error. */
  method Ask(tokens: Tokens, ghost talk: Talk, rejected: string, stale: bool) returns (token: Option<string>)
    requires Ready(tokens) && MayReject(tokens, rejected)
    modifies talk`asked, if tokens.OAuth? then {tokens.flow, tokens.flow.w} else {}
    ensures Ready(tokens)
    ensures talk.asked == old(talk.asked) + [Question(rejected, stale, token)]
    ensures tokens.NoTokens? ==> token == Some("")
    ensures tokens.Static? ==> token == if rejected == "" then Some(tokens.bearer) else None
    ensures tokens.OAuth? && token.Some? ==>
      token.value != "" && token.value != rejected && MayReject(tokens, token.value)
    ensures tokens.OAuth? && tokens.flow.w.lone ==>
      && tokens.flow.Bounded()
      && (token.Some? ==>
            || RankOf(tokens, token.value) == 0
            || (tokens.flow.Free() && (rejected == "" || RankOf(tokens, token.value) < old(RankOf(tokens, rejected)))))
      && (old(RankOf(tokens, rejected)) == 0 && rejected != "" && !stale ==> token.None? && tokens.flow.Free())
  {
    hide Inv, LocalInv, Flow.MustTry, Flow.Tried, Flow.Skipped, Flow.Rank, Flow.Synced;
    match tokens {
      case NoTokens =>
        token := Some("");
      case Static(bearer) =>
        token := if rejected == "" then Some(bearer) else None;
      case OAuth(flow) =>
        var out := flow.Token(rejected, stale);
        token := if out.Returned? then Some(out.token) else None;
      case Anything =>
        token := *;
    }
    talk.asked := talk.asked + [Question(rejected, stale, token)];
  }

  /** One round trip; a hostile server refuses every token without calling it expired. */
  method Send(tokens: Tokens, ghost talk: Talk, token: string, hostile: bool) returns (reply: Reply)
    requires Ready(tokens)
    modifies talk`sent, if tokens.OAuth? then {tokens.flow.w} else {}
    ensures Ready(tokens)
    ensures talk.sent == old(talk.sent) + [Attempt(token, reply)]
    ensures MayReject(tokens, token) <== old(MayReject(tokens, token))
    ensures hostile ==> reply == Reply(401, false)
    ensures LoneFlow(tokens) ==> tokens.flow.Free() && RankOf(tokens, token) <= old(RankOf(tokens, token))
  {
    hide Inv, LocalInv;
    if tokens.OAuth? {
      tokens.flow.w.Interfere(tokens.flow.i);
    }
    reply := *;
    if hostile {
      reply := Reply(401, false);
    }
    talk.sent := talk.sent + [Attempt(token, reply)];
  }

  /** Requests go up one rung at a time: each but the last was refused, and no token is tried twice in a row. */
  ghost predicate Climbs(attempts: seq<Attempt>) {
    forall j, k :: 0 <= j && k == j + 1 && k < |attempts| ==>
      attempts[j].reply.status == 401 && attempts[k].token != attempts[j].token
  }

  ghost predicate LoneFlow(tokens: Tokens)
  {
    tokens.OAuth? && tokens.flow.w.lone
  }

  /** What a refused request is reported to the provider as: the anonymous marker stands for no token at all. */
  function Refused(token: string): string { if token == "" then "-" else token }

  /**
    Requests and questions in step.  Every request carries the provider's last
    answer; every question but the first reports the request before it, with
    its challenge.
  */
  ghost predicate InStep(asked: seq<Question>, sent: seq<Attempt>) {
    && |sent| <= |asked| <= |sent| + 1
    && (asked != [] ==> asked[0].rejected == "" && !asked[0].stale)
    && (forall k :: 0 <= k < |sent| ==> asked[k].answer == Some(sent[k].token))
    && (forall j, k :: 0 <= j && k == j + 1 && k < |asked| ==>
          asked[k].rejected == Refused(sent[j].token) && asked[k].stale == sent[j].reply.stale)
  }

  /**
    The end fits what was asked and sent.  It is the provider's error exactly
    when its last answer was one, and then the last request had a 401; any
    other end is the last request's, and a 401 is handed on only without a
    provider, at the backstop, or when the refused token was offered again.
  */
  ghost predicate Fits(final: Final, provider: bool, asked: seq<Question>, sent: seq<Attempt>) {
    && asked != []
    && (final.ProviderError? <==> asked[|asked| - 1].answer.None?)
    && (final.ProviderError? && sent != [] ==> sent[|sent| - 1].reply.status == 401)
    && (!final.ProviderError? ==> sent != [] && sent[|sent| - 1].reply.status == if final.Response? then final.status else 0)
    && (final == Response(401) ==>
          || !provider
          || |sent| == MAX_TOKEN_CYCLES + 1
          || (|asked| == |sent| + 1 && asked[|sent|].answer == Some(sent[|sent| - 1].token)))
  }

  lemma FitsError(asked: seq<Question>, sent: seq<Attempt>, provider: bool)
    requires asked != [] && asked[|asked| - 1].answer.None? && (sent != [] ==> sent[|sent| - 1].reply.status == 401)
    ensures Fits(ProviderError, provider, asked, sent)
  {
  }

  lemma FitsReply(asked: seq<Question>, sent: seq<Attempt>, provider: bool)
    requires sent != [] && asked != [] && asked[|asked| - 1].answer == Some(sent[|sent| - 1].token)
    requires sent[|sent| - 1].reply.status == 401 ==>
      !provider || |sent| == MAX_TOKEN_CYCLES + 1 || |asked| == |sent| + 1
    ensures var status := sent[|sent| - 1].reply.status;
      Fits(if status == 0 then TransportError else Response(status), provider, asked, sent)
  {
  }

  /** Halfway up: the provider has answered with a token that is not the one just refused, if any. */
  ghost predicate Climbing(token: string, asked: seq<Question>, sent: seq<Attempt>) {
    && InStep(asked, sent) && Climbs(sent) && |asked| == |sent| + 1 && asked[|sent|].answer == Some(token)
    && (sent != [] ==> sent[|sent| - 1].reply.status == 401 && sent[|sent| - 1].token != token)
  }

  lemma FirstQuestion(q: Question)
    requires q.rejected == "" && !q.stale
    ensures InStep([q], []) && Climbs([]) && (q.answer.Some? ==> Climbing(q.answer.value, [q], []))
    ensures q.answer.None? ==> Fits(ProviderError, false, [q], []) && Fits(ProviderError, true, [q], [])
  {
  }

  lemma OneMoreRequest(asked: seq<Question>, sent: seq<Attempt>, a: Attempt)
    requires Climbing(a.token, asked, sent)
    ensures InStep(asked, sent + [a]) && Climbs(sent + [a])
  {
  }

  lemma OneMoreQuestion(asked: seq<Question>, sent: seq<Attempt>, q: Question)
    requires InStep(asked, sent) && Climbs(sent) && |asked| == |sent| > 0 && sent[|sent| - 1].reply.status == 401
    requires q.rejected == Refused(sent[|sent| - 1].token) && q.stale == sent[|sent| - 1].reply.stale
    ensures InStep(asked + [q], sent)
    ensures q.answer.Some? && q.answer.value != sent[|sent| - 1].token ==> Climbing(q.answer.value, asked + [q], sent)
  {
  }

  /** One rung: a request, and when it is refused, a question; either the end or the next token. */
  method Rung(tokens: Tokens, ghost talk: Talk, token: string, hostile: bool, attempt: nat) returns (final: Final, next: Option<string>)
    requires Ready(tokens) && MayReject(tokens, token) && (tokens.OAuth? ==> token != "")
    requires Climbing(token, talk.asked, talk.sent) && attempt == |talk.sent| <= MAX_TOKEN_CYCLES
    modifies talk, if tokens.OAuth? then {tokens.flow, tokens.flow.w} else {}
    ensures Ready(tokens)
    ensures |talk.sent| == attempt + 1 && talk.sent[attempt].token == token && talk.sent[..attempt] == old(talk.sent)
    ensures next.Some? ==> attempt < MAX_TOKEN_CYCLES && Climbing(next.value, talk.asked, talk.sent)
    ensures next.Some? ==> MayReject(tokens, next.value) && (tokens.OAuth? ==> next.value != "")
    ensures next.None? ==>
      InStep(talk.asked, talk.sent) && Climbs(talk.sent) && Fits(final, !tokens.NoTokens?, talk.asked, talk.sent)
    ensures tokens.NoTokens? ==> next.None? && !final.ProviderError?
    ensures tokens.Static? ==>
      next.None? && (attempt < MAX_TOKEN_CYCLES ==> (final.ProviderError? <==> talk.sent[attempt].reply.status == 401))
    ensures tokens.OAuth? && next.None? && final == Response(401) ==> attempt == MAX_TOKEN_CYCLES
    ensures LoneFlow(tokens) && hostile && attempt < MAX_TOKEN_CYCLES ==>
      && tokens.flow.Bounded()
      && if next.None? then final == ProviderError && (old(RankOf(tokens, token)) == 0 ==> tokens.flow.Free())
         else RankOf(tokens, next.value) == 0 || (tokens.flow.Free() && RankOf(tokens, next.value) < old(RankOf(tokens, token)))
    ensures LoneFlow(tokens) && hostile && attempt < MAX_TOKEN_CYCLES && old(RankOf(tokens, token)) == 0 ==>
      next.None? && tokens.flow.Free()
  {
    hide Ready, RankOf, InStep, Climbs, Fits;
    final, next := ProviderError, None;
    ghost var asked, sent := talk.asked, talk.sent;
    var reply := Send(tokens, talk, token, hostile);
    OneMoreRequest(asked, sent, Attempt(token, reply));
    if reply.status != 401 || tokens.NoTokens? || attempt >= MAX_TOKEN_CYCLES {
      FitsReply(asked, talk.sent, !tokens.NoTokens?);
      final := if reply.status == 0 then TransportError else Response(reply.status);
      return;
    }
    next := Ask(tokens, talk, if token == "" then "-" else token, reply.stale);
    OneMoreQuestion(asked, talk.sent, talk.asked[|asked|]);
    if next.None? {
      FitsError(talk.asked, talk.sent, !tokens.NoTokens?);
    } else if next.value == token {
      FitsReply(talk.asked, talk.sent, !tokens.NoTokens?);
      final, next := Response(401), None;
    }
  }

  /**
    doAuthed.  For any provider and server: at most MAX_TOKEN_CYCLES + 1
    requests, consecutive ones with different tokens, each after the provider
    was told of the refusal before it; and the end fits.  For a lone OAuth flow
    and a server that refuses everything: at most one refresh exchange, one
    login and three requests, and the end is the provider's error, before the
    backstop.
  */
  method DoAuthed(tokens: Tokens, ghost talk: Talk, hostile: bool) returns (final: Final)
    requires Ready(tokens) && talk.asked == [] && talk.sent == []
    modifies talk, if tokens.OAuth? then {tokens.flow, tokens.flow.w} else {}
    ensures Ready(tokens)
    ensures |talk.sent| <= MAX_TOKEN_CYCLES + 1 && Climbs(talk.sent)
    ensures InStep(talk.asked, talk.sent) && Fits(final, !tokens.NoTokens?, talk.asked, talk.sent)
    ensures tokens.NoTokens? ==> |talk.sent| == 1 && talk.sent[0].token == "" && !final.ProviderError?
    ensures tokens.Static? ==>
      |talk.sent| == 1 && talk.sent[0].token == tokens.bearer && (final.ProviderError? <==> talk.sent[0].reply.status == 401)
    ensures tokens.OAuth? && final == Response(401) ==> |talk.sent| == MAX_TOKEN_CYCLES + 1
    ensures LoneFlow(tokens) && hostile ==>
      final == ProviderError && tokens.flow.Bounded() && |talk.sent| <= 3
  {
    hide Ready, RankOf, InStep, Climbs, Fits;
    var next := Ask(tokens, talk, "", false);
    assert talk.asked == [Question("", false, next)];
    FirstQuestion(talk.asked[0]);
    final := ProviderError;
    var attempt := 0;
    while next.Some?
      invariant Ready(tokens) && |talk.sent| == attempt <= MAX_TOKEN_CYCLES + 1
      invariant next.Some? ==>
        && attempt <= MAX_TOKEN_CYCLES && Climbing(next.value, talk.asked, talk.sent)
        && MayReject(tokens, next.value) && (tokens.OAuth? ==> next.value != "")
      invariant next.None? ==>
        InStep(talk.asked, talk.sent) && Climbs(talk.sent) && Fits(final, !tokens.NoTokens?, talk.asked, talk.sent)
      invariant tokens.NoTokens? ==>
        if next.Some? then attempt == 0 && next.value == ""
        else attempt == 1 && talk.sent[0].token == "" && !final.ProviderError?
      invariant tokens.Static? ==>
        if next.Some? then attempt == 0 && next.value == tokens.bearer
        else attempt == 1 && talk.sent[0].token == tokens.bearer && (final.ProviderError? <==> talk.sent[0].reply.status == 401)
      invariant tokens.OAuth? && next.None? && final == Response(401) ==> attempt == MAX_TOKEN_CYCLES + 1
      invariant LoneFlow(tokens) && hostile ==>
        && tokens.flow.Bounded() && attempt <= 3
        && if next.None? then final == ProviderError
           else attempt + RankOf(tokens, next.value) <= 2 && (RankOf(tokens, next.value) == 0 || tokens.flow.Free())
      decreases MAX_TOKEN_CYCLES + 1 - attempt
    {
      final, next := Rung(tokens, talk, next.value, hostile, attempt);
      attempt := attempt + 1;
    }
  }
}
