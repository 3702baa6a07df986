/**
 * The decode loops (decode_node.py).  The transformer is abstract: one step turns a cache and a token into a new
 * cache entry and the logits of the next token.
 */
module Decoding {
  import opened Options

  datatype Logit = Num(value: real) | NaN

  datatype Network<!E> = Network(entry: (seq<E>, nat) -> E, logits: (seq<E>, nat) -> seq<Logit>)

  /** Chooses a token; the first argument counts the choices so far, so that sampling can differ between steps. */
  type Picker = (nat, seq<Logit>) -> nat

  // ---- Specification: unfolding without a cache ----

  /** The cache after feeding `ts`. */
  function Extend<E>(net: Network<E>, base: seq<E>, ts: seq<nat>): seq<E> {
    if ts == [] then base
    else var c := Extend(net, base, ts[..|ts| - 1]); c + [net.entry(c, ts[|ts| - 1])]
  }

  /** The logits after feeding `ts`, recomputed from scratch. */
  function LogitsAfter<E>(net: Network<E>, base: seq<E>, ts: seq<nat>): seq<Logit>
    requires ts != []
  {
    net.logits(Extend(net, base, ts[..|ts| - 1]), ts[|ts| - 1])
  }

  /** Plain autoregressive unfolding: `n` times recompute everything, pick, append. */
  function Unfold<E>(net: Network<E>, pick: Picker, base: seq<E>, start: seq<nat>, n: nat): (ts: seq<nat>)
    requires start != []
    ensures |ts| == |start| + n && start <= ts
  {
    if n == 0 then start
    else
      var ts := Unfold(net, pick, base, start, n - 1);
      ts + [pick(n - 1, LogitsAfter(net, base, ts))]
  }

  /** Changes the logits before a choice, given the number of choices made and the tokens fed so far. */
  type Adjust = (nat, seq<nat>, seq<Logit>) -> seq<Logit>

  /** The same with the logits adjusted before each choice. */
  function UnfoldWith<E>(net: Network<E>, pick: Picker, adjust: Adjust, base: seq<E>, start: seq<nat>,
                         n: nat): (ts: seq<nat>)
    requires start != []
    ensures |ts| == |start| + n && start <= ts
  {
    if n == 0 then start
    else
      var ts := UnfoldWith(net, pick, adjust, base, start, n - 1);
      ts + [pick(n - 1, adjust(n - 1, ts, LogitsAfter(net, base, ts)))]
  }

  ghost predicate Neutral(adjust: Adjust) {
    forall n: nat, ts: seq<nat>, l: seq<Logit> :: adjust(n, ts, l) == l
  }

  lemma {:induction false} NeutralUnfolding<E>(net: Network<E>, pick: Picker, adjust: Adjust, base: seq<E>,
                              start: seq<nat>, n: nat)
    requires start != [] && Neutral(adjust)
    ensures UnfoldWith(net, pick, adjust, base, start, n) == Unfold(net, pick, base, start, n)
  {
    if n > 0 { NeutralUnfolding(net, pick, adjust, base, start, n - 1); }
  }

  // ---- Repetition penalties ----

  function Divided(x: real, y: real): Logit {
    if y == 0.0 then NaN else Num(x / y)
  }

  /** The plain handler: positive logits are divided by the penalty, others multiplied. */
  function Penalised(l: Logit, penalty: real): Logit {
    match l
    case NaN => NaN
    case Num(x) => if x > 0.0 then Divided(x, penalty) else Num(x * penalty)
  }

  /** The streaming handler: there the whole conditional expression is the divisor. */
  function StreamPenalised(l: Logit, penalty: real): Logit {
    match l
    case NaN => NaN
    case Num(x) => Divided(x, if x > 0.0 then penalty else x * penalty)
  }

  function Repeated(logits: seq<Logit>, tokens: seq<nat>, penalise: Logit -> Logit): (r: seq<Logit>)
    ensures |r| == |logits|
  {
    if tokens == [] then logits
    else
      var l, t := Repeated(logits, tokens[..|tokens| - 1], penalise), tokens[|tokens| - 1];
      if t < |l| then l[t := penalise(l[t])] else l
  }

  function ByPenalty(penalty: real): Logit -> Logit {
    (l: Logit) => Penalised(l, penalty)
  }

  function ByStreamPenalty(penalty: real): Logit -> Logit {
    (l: Logit) => StreamPenalised(l, penalty)
  }

  /** The new tokens among those fed: all of them, unless the feed began with a repeated prompt token. */
  function NewTokens(first: Option<nat>, ts: seq<nat>): seq<nat> {
    if first.Some? || ts == [] then ts else ts[1..]
  }

  /** The plain handler spares the first step of its loop. */
  function PlainAdjust(first: Option<nat>, penalty: real): Adjust {
    (n: nat, ts: seq<nat>, l: seq<Logit>) =>
      if penalty != 1.0 && n > (if first.Some? then 1 else 0) then Repeated(l, NewTokens(first, ts), ByPenalty(penalty))
      else l
  }

  /** The streaming handler spares only the sanity step that a given first token brings. */
  function StreamAdjust(first: Option<nat>, penalty: real): Adjust {
    (n: nat, ts: seq<nat>, l: seq<Logit>) =>
      if penalty != 1.0 && (first.Some? ==> n > 0) then Repeated(l, NewTokens(first, ts), ByStreamPenalty(penalty))
      else l
  }

  // ---- The two handlers ----

  /** One entry per fed token; the model is called with last token and cache, and returns logits and new cache. */
  method Forward<E>(net: Network<E>, token: nat, cache: seq<E>) returns (logits: seq<Logit>, cache': seq<E>)
    ensures logits == net.logits(cache, token) && cache' == cache + [net.entry(cache, token)]
  {
    logits, cache' := net.logits(cache, token), cache + [net.entry(cache, token)];
  }

  method ApplyPenalty(logits: seq<Logit>, tokens: seq<nat>, penalise: Logit -> Logit) returns (r: seq<Logit>)
    ensures r == Repeated(logits, tokens, penalise)
  {
    r := logits;
    for i := 0 to |tokens|
      invariant r == Repeated(logits, tokens[..i], penalise)
    {
      assert tokens[..i + 1][..i] == tokens[..i];
      if tokens[i] < |r| {
        r := r[tokens[i] := penalise(r[tokens[i]])];
      }
    }
    assert tokens[..|tokens|] == tokens;
  }

  /** What the model is fed beyond the initial cache: the generated tokens, or first a repeated last prompt token. */
  function FedFrom(prompt: seq<nat>, first: Option<nat>): seq<nat>
    requires first.None? ==> prompt != []
  {
    if first.Some? then [first.value] else [prompt[|prompt| - 1]]
  }

  /** How many tokens are picked. */
  function Picks(first: Option<nat>, maxNew: int): nat {
    if first.None? then (if maxNew > 0 then maxNew else 0)
    else if maxNew <= 0 then 0
    else if maxNew == 1 then 1
    else maxNew - 1
  }

  /** All tokens and the cache after `n` picks, in terms of unfolding. */
  function Expected<E>(net: Network<E>, pick: Picker, adjust: Adjust, base: seq<E>, prompt: seq<nat>,
                       first: Option<nat>, n: nat): (seq<nat>, seq<E>)
    requires first.None? ==> prompt != []
  {
    var ts := UnfoldWith(net, pick, adjust, base, FedFrom(prompt, first), n);
    (prompt + (if first.Some? then ts else ts[1..]), Extend(net, base, ts[..|ts| - 1]))
  }

  ghost predicate Decoded<E>(net: Network<E>, pick: Picker, adjust: Adjust, base: seq<E>, prompt: seq<nat>,
                             first: Option<nat>, n: nat, generated: seq<nat>, cache: seq<E>)
    requires first.None? ==> prompt != []
  {
    (generated, cache) == Expected(net, pick, adjust, base, prompt, first, n)
  }

  lemma {:induction false} Begin<E>(net: Network<E>, pick: Picker, adjust: Adjust, base: seq<E>, prompt: seq<nat>,
                              first: Option<nat>)
    requires first.None? ==> prompt != []
    ensures Decoded(net, pick, adjust, base, prompt, first, 0,
                    if first.Some? then prompt + [first.value] else prompt, base)
  {
    assert FedFrom(prompt, first)[..0] == [];
    assert prompt + [] == prompt;
    assert FedFrom(prompt, first)[1..] == [];
  }

  /** One turn of the loop: the last generated token meets a cache of all tokens before it. */
  lemma {:induction false} Continue<E>(net: Network<E>, pick: Picker, adjust: Adjust, base: seq<E>, prompt: seq<nat>,
                              first: Option<nat>,
                              n: nat, generated: seq<nat>, cache: seq<E>)
    requires first.None? ==> prompt != []
    requires Decoded(net, pick, adjust, base, prompt, first, n, generated, cache)
    ensures generated != []
    ensures var t := generated[|generated| - 1];
            var ts := UnfoldWith(net, pick, adjust, base, FedFrom(prompt, first), n);
            Decoded(net, pick, adjust, base, prompt, first, n + 1,
                    generated + [pick(n, adjust(n, ts, net.logits(cache, t)))], cache + [net.entry(cache, t)])
  {
    var ts := UnfoldWith(net, pick, adjust, base, FedFrom(prompt, first), n);
    Shown(prompt, ts, first.Some?);
    var x := pick(n, adjust(n, ts, net.logits(cache, ts[|ts| - 1])));
    var ts' := UnfoldWith(net, pick, adjust, base, FedFrom(prompt, first), n + 1);
    assert ts' == ts + [x];
    Grown(prompt, ts, x, first.Some?);
  }

  lemma {:induction false} Shown(prompt: seq<nat>, ts: seq<nat>, all: bool)
    requires ts != [] && (!all ==> prompt != [] && ts[0] == prompt[|prompt| - 1])
    ensures var g := prompt + (if all then ts else ts[1..]); g != [] && g[|g| - 1] == ts[|ts| - 1]
  {
  }

  lemma {:induction false} Grown(prompt: seq<nat>, ts: seq<nat>, x: nat, all: bool)
    requires ts != []
    ensures (ts + [x])[..|ts + [x]| - 1] == ts
    ensures prompt + (if all then ts + [x] else (ts + [x])[1..]) == prompt + (if all then ts else ts[1..]) + [x]
  {
    assert (ts + [x])[1..] == ts[1..] + [x];
  }

  /** This step's adjustment is a penalty on the new tokens, or nothing. */
  ghost predicate AdjustsBy(adjust: Adjust, first: Option<nat>, n: nat, penalise: Option<Logit -> Logit>) {
    forall ts: seq<nat>, l: seq<Logit> ::
      adjust(n, ts, l) == if penalise.Some? then Repeated(l, NewTokens(first, ts), penalise.value) else l
  }

  lemma {:induction false} PlainAdjusts(first: Option<nat>, penalty: real, n: nat)
    ensures AdjustsBy(PlainAdjust(first, penalty), first, n,
                      if penalty != 1.0 && n > (if first.Some? then 1 else 0) then Some(ByPenalty(penalty)) else None)
  {
  }

  lemma {:induction false} StreamAdjusts(first: Option<nat>, penalty: real, n: nat)
    ensures AdjustsBy(StreamAdjust(first, penalty), first, n,
                      if penalty != 1.0 && (first.Some? ==> n > 0) then Some(ByStreamPenalty(penalty)) else None)
  {
  }

  /** The body shared by both loops and both sanity steps: feed the last token, adjust the logits, pick. */
  method OneStep<E>(net: Network<E>, pick: Picker, ghost adjust: Adjust, ghost base: seq<E>, prompt: seq<nat>,
                    first: Option<nat>, n: nat, generated: seq<nat>, cache: seq<E>, penalise: Option<Logit -> Logit>)
    returns (generated': seq<nat>, cache': seq<E>)
    requires first.None? ==> prompt != []
    requires Decoded(net, pick, adjust, base, prompt, first, n, generated, cache)
        && AdjustsBy(adjust, first, n, penalise)
    ensures Decoded(net, pick, adjust, base, prompt, first, n + 1, generated', cache')
  {
    Continue(net, pick, adjust, base, prompt, first, n, generated, cache);
    NewAmongGenerated(net, pick, adjust, base, prompt, first, n, generated, cache);
    var logits;
    logits, cache' := Forward(net, generated[|generated| - 1], cache);
    if penalise.Some? {
      logits := ApplyPenalty(logits, generated[|prompt|..], penalise.value);
    }
    generated' := generated + [pick(n, logits)];
  }

  lemma {:induction false} NewAmongGenerated<E>(net: Network<E>, pick: Picker, adjust: Adjust, base: seq<E>,
                              prompt: seq<nat>,
                              first: Option<nat>, n: nat, generated: seq<nat>, cache: seq<E>)
    requires first.None? ==> prompt != []
    requires Decoded(net, pick, adjust, base, prompt, first, n, generated, cache)
    ensures |generated| >= |prompt|
    ensures generated[|prompt|..] == NewTokens(first, UnfoldWith(net, pick, adjust, base, FedFrom(prompt, first), n))
  {
  }

  /** `handle_run_decode` from the rebuilt cache on. */
  method RunDecode<E>(net: Network<E>, pick: Picker, base: seq<E>, prompt: seq<nat>, first: Option<nat>, maxNew: int,
      penalty: real)
    returns (generated: seq<nat>, cache: seq<E>)
    requires first.None? ==> prompt != []
    ensures Decoded(net, pick, PlainAdjust(first, penalty), base, prompt, first, Picks(first, maxNew), generated, cache)
  {
    ghost var adjust := PlainAdjust(first, penalty);
    cache, generated := base, prompt;
    var toGenerate := maxNew;
    var picks := 0;
    Begin(net, pick, adjust, base, prompt, first);
    if first.Some? {
      generated := prompt + [first.value];
      toGenerate := maxNew - 1;
      if toGenerate >= 0 {
        PlainAdjusts(first, penalty, 0);
        generated, cache := OneStep(net, pick, adjust, base, prompt, first, 0, generated, cache, None);
        toGenerate := toGenerate - 1;
        picks := 1;
      }
    }
    var steps := if toGenerate > 0 then toGenerate else 0;
    ghost var made := picks;
    assert made + steps == Picks(first, maxNew);
    for step := 0 to steps
      invariant picks == made + step
      invariant Decoded(net, pick, adjust, base, prompt, first, picks, generated, cache)
    {
      PlainAdjusts(first, penalty, picks);
      var penalise := if penalty != 1.0 && step > 0 then Some(ByPenalty(penalty)) else None;
      generated, cache := OneStep(net, pick, adjust, base, prompt, first, picks, generated, cache, penalise);
      picks := picks + 1;
    }
  }

  /** `run_decode_from_abkt`: the same loop, but its penalty starts a step earlier and is written differently. */
  method RunDecodeFromStream<E>(net: Network<E>, pick: Picker, base: seq<E>, prompt: seq<nat>, first: Option<nat>,
                              maxNew: int,
      penalty: real)
    returns (generated: seq<nat>, cache: seq<E>)
    requires first.None? ==> prompt != []
    ensures Decoded(net, pick, StreamAdjust(first, penalty), base, prompt, first, Picks(first, maxNew), generated,
        cache)
  {
    ghost var adjust := StreamAdjust(first, penalty);
    cache, generated := base, prompt;
    var tokensLeft := maxNew;
    var picks := 0;
    Begin(net, pick, adjust, base, prompt, first);
    if first.Some? {
      generated := generated + [first.value];
      tokensLeft := maxNew - 1;
    }
    if first.Some? && tokensLeft >= 0 {
      StreamAdjusts(first, penalty, 0);
      generated, cache := OneStep(net, pick, adjust, base, prompt, first, 0, generated, cache, None);
      tokensLeft := tokensLeft - 1;
      picks := 1;
    }
    var steps := if tokensLeft > 0 then tokensLeft else 0;
    ghost var made := picks;
    assert made + steps == Picks(first, maxNew);
    for step := 0 to steps
      invariant picks == made + step
      invariant Decoded(net, pick, adjust, base, prompt, first, picks, generated, cache)
    {
      StreamAdjusts(first, penalty, picks);
      var penalise := if penalty != 1.0 then Some(ByStreamPenalty(penalty)) else None;
      generated, cache := OneStep(net, pick, adjust, base, prompt, first, picks, generated, cache, penalise);
      picks := picks + 1;
    }
  }

  // ---- What the loops compute ----

  /** Feeding one list after another is feeding both. */
  lemma {:induction false} ExtendConcat<E>(net: Network<E>, base: seq<E>, a: seq<nat>, b: seq<nat>)
    ensures Extend(net, base, a + b) == Extend(net, Extend(net, base, a), b)
  {
    if b == [] {
      assert a + b == a;
    } else {
      ExtendConcat(net, base, a, b[..|b| - 1]);
      assert (a + b)[..|a + b| - 1] == a + b[..|b| - 1];
    }
  }

  lemma {:induction false} CacheIsOneEntryPerToken<E>(net: Network<E>, base: seq<E>, ts: seq<nat>)
    ensures |Extend(net, base, ts)| == |base| + |ts| && base <= Extend(net, base, ts)
  {
    if ts != [] { CacheIsOneEntryPerToken(net, base, ts[..|ts| - 1]); }
  }

  /** Unfolding from the cache of a prompt is unfolding the whole text from nothing. */
  lemma {:induction false} UnfoldFromPrompt<E>(net: Network<E>, pick: Picker, prompt: seq<nat>, start: seq<nat>, n: nat)
    requires start != []
    ensures prompt + Unfold(net, pick, Extend(net, [], prompt), start, n) == Unfold(net, pick, [], prompt + start, n)
  {
    if n > 0 {
      UnfoldFromPrompt(net, pick, prompt, start, n - 1);
      var ts := Unfold(net, pick, Extend(net, [], prompt), start, n - 1);
      ExtendConcat(net, [], prompt, ts[..|ts| - 1]);
      assert (prompt + ts)[..|prompt + ts| - 1] == prompt + ts[..|ts| - 1];
      assert prompt + (ts + [pick(n - 1, LogitsAfter(net, [], prompt + ts))])
          == (prompt + ts) + [pick(n - 1, LogitsAfter(net, [], prompt + ts))];
    }
  }

  /** From the prompt's cache and a first token, `n` picks give the plain unfolding of prompt and first token. */
  lemma {:induction false} CachedIsUnfolded<E>(net: Network<E>, pick: Picker, adjust: Adjust, prompt: seq<nat>,
                              first: nat, n: nat,
                              generated: seq<nat>, cache: seq<E>)
    requires Neutral(adjust)
    requires Decoded(net, pick, adjust, Extend(net, [], prompt), prompt, Some(first), n, generated, cache)
    ensures generated == Unfold(net, pick, [], prompt + [first], n)
    ensures |generated| == |prompt| + 1 + n && prompt + [first] <= generated
    ensures cache == Extend(net, [], generated[..|generated| - 1]) && |cache| == |generated| - 1
  {
    var base := Extend(net, [], prompt);
    NeutralUnfolding(net, pick, adjust, base, [first], n);
    UnfoldFromPrompt(net, pick, prompt, [first], n);
    WholeText(net, prompt, Unfold(net, pick, base, [first], n), first, generated, cache);
  }

  /**
    From the prompt's cache and a first token, without penalty: the output is the plain unfolding of prompt and first
    token with nothing cached, it has exactly the requested number of new tokens, and the cache holds all but the last.
   */
  lemma {:induction false} CachedDecodingIsUnfolding<E>(net: Network<E>, pick: Picker, adjust: Adjust,
                              prompt: seq<nat>, first: nat, maxNew: int,
                              generated: seq<nat>, cache: seq<E>)
    requires maxNew >= 2 && Neutral(adjust)
    requires Decoded(net, pick, adjust, Extend(net, [], prompt), prompt, Some(first), Picks(Some(first), maxNew),
        generated, cache)
    ensures generated == Unfold(net, pick, [], prompt + [first], maxNew - 1)
    ensures |generated| == |prompt| + maxNew && prompt + [first] <= generated
    ensures cache == Extend(net, [], generated[..|generated| - 1]) && |cache| == |generated| - 1
  {
    CachedIsUnfolded(net, pick, adjust, prompt, first, Picks(Some(first), maxNew), generated, cache);
  }

  lemma {:induction false} ButLast(prompt: seq<nat>, ts: seq<nat>)
    requires ts != []
    ensures (prompt + ts)[..|prompt + ts| - 1] == prompt + ts[..|ts| - 1]
    ensures prompt + [ts[0]] <= prompt + ts
  {
    assert ts == [ts[0]] + ts[1..];
    assert prompt + ts == prompt + [ts[0]] + ts[1..];
  }

  lemma {:induction false} WholeText<E>(net: Network<E>, prompt: seq<nat>, ts: seq<nat>, first: nat,
                              generated: seq<nat>, cache: seq<E>)
    requires ts != [] && ts[0] == first && generated == prompt + ts
    requires cache == Extend(net, Extend(net, [], prompt), ts[..|ts| - 1])
    ensures |generated| == |prompt| + |ts| && prompt + [first] <= generated
    ensures cache == Extend(net, [], generated[..|generated| - 1]) && |cache| == |generated| - 1
  {
    ButLast(prompt, ts);
    ExtendConcat(net, [], prompt, ts[..|ts| - 1]);
    CacheIsOneEntryPerToken(net, [], generated[..|generated| - 1]);
  }

  lemma {:induction false} Respelled(prompt: seq<nat>, last: nat, ts: seq<nat>, generated: seq<nat>)
    requires ts != [] && ts[0] == last && generated == prompt + ts[1..]
    ensures prompt + [last] + generated[|prompt|..] == prompt + ts
  {
  }

  /** Without a first token the last prompt token is fed twice, and the text continues as if it were written twice. */
  lemma {:induction false} LastTokenTwice<E>(net: Network<E>, pick: Picker, adjust: Adjust, prompt: seq<nat>, n: nat,
                              generated: seq<nat>, cache: seq<E>)
    requires prompt != [] && Neutral(adjust)
    requires Decoded(net, pick, adjust, Extend(net, [], prompt), prompt, None, n, generated, cache)
    ensures var last := prompt[|prompt| - 1];
            prompt + [last] + generated[|prompt|..] == Unfold(net, pick, [], prompt + [last], n)
  {
    var last := prompt[|prompt| - 1];
    NeutralUnfolding(net, pick, adjust, Extend(net, [], prompt), [last], n);
    UnfoldFromPrompt(net, pick, prompt, [last], n);
    Respelled(prompt, last, Unfold(net, pick, Extend(net, [], prompt), [last], n), generated);
  }

  /** The number of new tokens is the requested one, unless one or none was requested on top of a given first one. */
  lemma {:induction false} ExactCount<E>(net: Network<E>, pick: Picker, adjust: Adjust, base: seq<E>,
                              prompt: seq<nat>, first: Option<nat>,
                              maxNew: int, generated: seq<nat>, cache: seq<E>)
    requires first.None? ==> prompt != []
    requires Decoded(net, pick, adjust, base, prompt, first, Picks(first, maxNew), generated, cache)
    ensures |generated| - |prompt| == maxNew <==> (if first.Some? then maxNew >= 2 else maxNew >= 0)
    ensures first.Some? && maxNew <= 1 ==> |generated| - |prompt| == if maxNew == 1 then 2 else 1
  {
  }

  /** Without a repetition penalty both handlers give the same tokens and the same cache. */
  lemma {:induction false} HandlersAgree<E>(net: Network<E>, pick: Picker, base: seq<E>, prompt: seq<nat>,
                              first: Option<nat>, n: nat,
                              g: seq<nat>, c: seq<E>, g': seq<nat>, c': seq<E>)
    requires first.None? ==> prompt != []
    requires Decoded(net, pick, PlainAdjust(first, 1.0), base, prompt, first, n, g, c)
    requires Decoded(net, pick, StreamAdjust(first, 1.0), base, prompt, first, n, g', c')
    ensures Neutral(PlainAdjust(first, 1.0)) && Neutral(StreamAdjust(first, 1.0))
    ensures g == g' && c == c'
  {
    NeutralUnfolding(net, pick, PlainAdjust(first, 1.0), base, FedFrom(prompt, first), n);
    NeutralUnfolding(net, pick, StreamAdjust(first, 1.0), base, FedFrom(prompt, first), n);
  }

  // ---- Penalties compared ----

  lemma {:induction false} Quotient(x: real, y: real) returns (q: real)
    requires y > 0.0
    ensures q == x / y && q * y == x && (x > 0.0 ==> q > 0.0)
  {
    q := x / y;
    if q <= 0.0 { assert (-q) * y >= 0.0; }
  }

  lemma {:induction false} Smaller(q: real, y: real, x: real)
    requires y > 1.0 && q > 0.0 && q * y == x
    ensures q < x
  {
    assert q * (y - 1.0) > 0.0;
    assert q * (y - 1.0) == q * y - q;
  }

  lemma {:induction false} Lower(x: real, penalty: real) returns (y: real)
    requires penalty > 1.0 && x < 0.0
    ensures y == x * penalty && y < x
  {
    y := x * penalty;
    Smaller(-x, penalty, -y);
  }

  /** With a penalty above 1 the plain handler lowers every logit but zero, and keeps its sign. */
  lemma {:induction false} PenaltyLowers(x: real, penalty: real)
    requires penalty > 1.0
    ensures Penalised(Num(x), penalty).Num?
    ensures x > 0.0 ==> 0.0 < Penalised(Num(x), penalty).value < x
    ensures x < 0.0 ==> Penalised(Num(x), penalty).value < x
    ensures x == 0.0 ==> Penalised(Num(x), penalty).value == x
    ensures if x > 0.0 then penalty * Penalised(Num(x), penalty).value == x
            else Penalised(Num(x), penalty).value == penalty * x
  {
    if x > 0.0 {
      var q := Quotient(x, penalty);
      Smaller(q, penalty, x);
    } else if x < 0.0 {
      var y := Lower(x, penalty);
      assert Penalised(Num(x), penalty) == Num(y);
    }
  }

  /**
    In the streaming handler a repeated token with a negative logit ends up with the reciprocal of the penalty, whatever
    the logit was: a positive one, for a positive penalty.
   */
  lemma {:induction false} StreamPenaltyInverts(x: real, penalty: real)
    requires penalty != 0.0 && x < 0.0
    ensures StreamPenalised(Num(x), penalty) == Num(1.0 / penalty)
    ensures penalty > 0.0 ==> 1.0 / penalty > 0.0 > x
  {
    var r := 1.0 / penalty;
    assert r * penalty == 1.0;
    NonZero(x, penalty);
    assert r * (x * penalty) == x * (r * penalty);
    SameQuotient(x, x * penalty, r);
    if penalty > 0.0 { var _ := Quotient(1.0, penalty); }
  }

  lemma {:induction false} NonZero(x: real, y: real)
    requires x != 0.0 && y != 0.0
    ensures x * y != 0.0
  {
    assert (x * y) / y == x;
  }

  lemma {:induction false} SameQuotient(a: real, b: real, r: real)
    requires b != 0.0 && r * b == a
    ensures a / b == r
  {
  }

  /** A product with a negative number is never the reciprocal. */
  lemma {:induction false} NotReciprocal(x: real, penalty: real)
    requires penalty != 0.0 && x < 0.0
    ensures x * penalty != 1.0 / penalty
  {
    Negative(x, penalty * penalty);
    assert (x * penalty) * penalty == x * (penalty * penalty);
    assert (1.0 / penalty) * penalty == 1.0;
  }

  lemma {:induction false} Negative(x: real, y: real)
    requires x < 0.0 && y >= 0.0
    ensures x * y <= 0.0
  {
  }

  /** Whatever the penalty, the two handlers' penalties agree on a logit exactly when it is positive. */
  lemma {:induction false} PenaltiesAgree(x: real, penalty: real)
    ensures StreamPenalised(Num(x), penalty) == Penalised(Num(x), penalty) <==> x > 0.0
  {
    if x < 0.0 && penalty != 0.0 {
      StreamPenaltyInverts(x, penalty);
      NotReciprocal(x, penalty);
    }
  }

  // ---- How often and from when on ----

  function Times(f: Logit -> Logit, n: nat, l: Logit): Logit {
    if n == 0 then l else f(Times(f, n - 1, l))
  }

  /** A token is penalised once for each of its occurrences, and no other is touched. */
  lemma {:induction false} OncePerOccurrence(logits: seq<Logit>, tokens: seq<nat>, penalise: Logit -> Logit, v: nat)
    requires v < |logits|
    ensures Repeated(logits, tokens, penalise)[v] == Times(penalise, multiset(tokens)[v], logits[v])
  {
    if tokens != [] {
      var front, t := tokens[..|tokens| - 1], tokens[|tokens| - 1];
      OncePerOccurrence(logits, front, penalise, v);
      assert tokens == front + [t];
    }
  }

  /** The plain handler makes its first choice without penalties, or its first two after a given token. */
  lemma {:induction false} PlainStart<E>(net: Network<E>, pick: Picker, base: seq<E>, prompt: seq<nat>,
                              first: Option<nat>, penalty: real, n: nat)
    requires (first.None? ==> prompt != []) && n <= (if first.Some? then 2 else 1)
    ensures UnfoldWith(net, pick, PlainAdjust(first, penalty), base, FedFrom(prompt, first), n)
         == Unfold(net, pick, base, FedFrom(prompt, first), n)
  {
    if n > 0 { PlainStart(net, pick, base, prompt, first, penalty, n - 1); }
  }

  /** The streaming handler makes its first choice without penalties. */
  lemma {:induction false} StreamStart<E>(net: Network<E>, pick: Picker, base: seq<E>, prompt: seq<nat>,
                              first: Option<nat>, penalty: real)
    requires first.None? ==> prompt != []
    ensures UnfoldWith(net, pick, StreamAdjust(first, penalty), base, FedFrom(prompt, first), 1)
         == Unfold(net, pick, base, FedFrom(prompt, first), 1)
  {
    var adjust, start := StreamAdjust(first, penalty), FedFrom(prompt, first);
    OneMore(net, pick, adjust, base, start, 0);
    assert UnfoldWith(net, pick, adjust, base, start, 0) == start == Unfold(net, pick, base, start, 0);
    assert first.None? ==> NewTokens(first, start) == [];
    StreamAdjusts(first, penalty, 0);
    assert adjust(0, start, LogitsAfter(net, base, start)) == LogitsAfter(net, base, start);
  }

  lemma {:induction false} OneMore<E>(net: Network<E>, pick: Picker, adjust: Adjust, base: seq<E>, start: seq<nat>,
                              n: nat)
    requires start != []
    ensures var ts := UnfoldWith(net, pick, adjust, base, start, n);
            UnfoldWith(net, pick, adjust, base, start, n + 1) ==
            ts + [pick(n, adjust(n, ts, LogitsAfter(net, base, ts)))]
  {
  }

  /** From then on every choice is made with all new tokens so far penalised. */
  lemma {:induction false} PlainLater<E>(net: Network<E>, pick: Picker, base: seq<E>, prompt: seq<nat>,
                              first: Option<nat>, penalty: real, n: nat)
    requires (first.None? ==> prompt != []) && penalty != 1.0 && n >= (if first.Some? then 2 else 1)
    ensures var ts := UnfoldWith(net, pick, PlainAdjust(first, penalty), base, FedFrom(prompt, first), n);
            UnfoldWith(net, pick, PlainAdjust(first, penalty), base, FedFrom(prompt, first), n + 1) == ts +
            [pick(n, Repeated(LogitsAfter(net, base, ts), if first.Some? then ts else ts[1..], ByPenalty(penalty)))]
  {
    OneMore(net, pick, PlainAdjust(first, penalty), base, FedFrom(prompt, first), n);
    PlainAdjusts(first, penalty, n);
  }

  lemma {:induction false} StreamLater<E>(net: Network<E>, pick: Picker, base: seq<E>, prompt: seq<nat>,
                              first: Option<nat>, penalty: real, n: nat)
    requires (first.None? ==> prompt != []) && penalty != 1.0 && n >= 1
    ensures var ts := UnfoldWith(net, pick, StreamAdjust(first, penalty), base, FedFrom(prompt, first), n);
            UnfoldWith(net, pick, StreamAdjust(first, penalty), base, FedFrom(prompt, first), n + 1) == ts +
            [pick(n, Repeated(LogitsAfter(net, base, ts), if first.Some? then ts else ts[1..],
                              ByStreamPenalty(penalty)))]
  {
    OneMore(net, pick, StreamAdjust(first, penalty), base, FedFrom(prompt, first), n);
    StreamAdjusts(first, penalty, n);
  }
}
