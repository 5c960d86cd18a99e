/**
 * The local response cache: a key that hashes the request, framed with NUL characters, and a run that answers from
 * the cache or from the provider. The hash is any function that tells preimages apart.
 */
module LocalCache {
  import opened Lists

  const NUL: char := 0 as char

  // ---- The framing --------------------------------------------------------------------------

  /** The fields with a NUL between each two. */
  function Frame(fields: seq<string>): string {
    if fields == [] then ""
    else if |fields| == 1 then fields[0]
    else fields[0] + [NUL] + Frame(fields[1..])
  }

  predicate NulFree(fields: seq<string>) {
    forall f :: f in fields ==> NUL !in f
  }

  function Nuls(s: string): nat {
    if s == "" then 0 else Nuls(s[..|s| - 1]) + (if s[|s| - 1] == NUL then 1 else 0)
  }

  /** Where two texts agree up to their first NULs, they agree field by field. */
  lemma SplitsAtNul(a: string, s: string, b: string, t: string)
    requires NUL !in a && NUL !in b && a + [NUL] + s == b + [NUL] + t
    ensures a == b && s == t
  {
    var x, y := a + [NUL] + s, b + [NUL] + t;
    assert x[|a|] == NUL && y[|b|] == NUL;
    assert |a| == |b|;
    assert x[..|a|] == a && y[..|b|] == b && x[|a| + 1..] == s && y[|b| + 1..] == t;
  }

  lemma {:induction false} FrameInjective(a: seq<string>, b: seq<string>)
    requires |a| == |b| && NulFree(a) && NulFree(b) && Frame(a) == Frame(b)
    ensures a == b
  {
    if |a| > 1 {
      SplitsAtNul(a[0], Frame(a[1..]), b[0], Frame(b[1..]));
      FrameInjective(a[1..], b[1..]);
      assert a == [a[0]] + a[1..] && b == [b[0]] + b[1..];
    }
  }

  lemma {:induction false} FrameAt(fields: seq<string>, i: nat, u: string, v: string)
    requires i + 1 < |fields| && fields[i] == u + [NUL] + v
    ensures Frame(fields) == Frame(fields[i := u][i + 1 := v + [NUL] + fields[i + 1]])
  {
    var moved := fields[i := u][i + 1 := v + [NUL] + fields[i + 1]];
    if i > 0 {
      FrameAt(fields[1..], i - 1, u, v);
      assert moved[1..] == fields[1..][i - 1 := u][i := v + [NUL] + fields[1..][i]];
    } else {
      var rest := Frame(fields[1..]);
      if |fields| == 2 {
        assert Frame(moved) == u + [NUL] + (v + [NUL] + fields[1]);
        assert Frame(fields) == u + [NUL] + v + [NUL] + fields[1];
      } else {
        assert moved[2..] == fields[2..] && moved[1..][1..] == fields[1..][1..] == fields[2..];
        assert Frame(moved[1..]) == v + [NUL] + fields[1] + [NUL] + Frame(fields[2..]);
        assert rest == fields[1] + [NUL] + Frame(fields[2..]);
        assert Frame(moved) == u + [NUL] + v + [NUL] + rest;
      }
    }
  }

  lemma {:induction false} FrameBack(fields: seq<string>, i: nat, u: string, v: string)
    requires 0 < i < |fields| && fields[i] == u + [NUL] + v
    ensures Frame(fields) == Frame(fields[i - 1 := fields[i - 1] + [NUL] + u][i := v])
  {
    var moved := fields[i - 1 := fields[i - 1] + [NUL] + u][i := v];
    FrameAt(moved, i - 1, fields[i - 1], u);
    assert moved[i - 1 := fields[i - 1]][i := u + [NUL] + moved[i]] == fields;
  }

  lemma FirstNul(s: string) returns (u: string, v: string)
    requires NUL in s
    ensures s == u + [NUL] + v
  {
    var k :| 0 <= k < |s| && s[k] == NUL;
    u, v := s[..k], s[k + 1..];
  }

  lemma OnlyOneReading(fields: seq<string>, other: seq<string>)
    requires fields != [] && |other| == |fields| && NulFree(fields) && Frame(other) == Frame(fields)
    ensures other == fields
  {
    FrameNuls(other);
    FrameNuls(fields);
    NoNuls(fields);
    NulsIn(other);
    FrameInjective(other, fields);
  }

  lemma OtherReading(fields: seq<string>, i: nat) returns (moved: seq<string>)
    requires |fields| >= 2 && i < |fields| && NUL in fields[i]
    ensures |moved| == |fields| && Frame(moved) == Frame(fields) && moved != fields
  {
    hide Frame;
    var u, v := FirstNul(fields[i]);
    if i + 1 < |fields| {
      FrameAt(fields, i, u, v);
      moved := fields[i := u][i + 1 := v + [NUL] + fields[i + 1]];
    } else {
      FrameBack(fields, i, u, v);
      moved := fields[i - 1 := fields[i - 1] + [NUL] + u][i := v];
    }
    assert |moved[i]| < |fields[i]|;
  }

  /**
   * The framing of two or more fields is unambiguous for a list exactly when none of its fields holds a NUL.
   */
  lemma FrameUniqueIff(fields: seq<string>)
    requires |fields| >= 2
    ensures (forall other: seq<string> :: |other| == |fields| && Frame(other) == Frame(fields) ==> other == fields) <==> NulFree(fields)
  {
    hide Frame;
    if NulFree(fields) {
      forall other: seq<string> | |other| == |fields| && Frame(other) == Frame(fields) ensures other == fields {
        OnlyOneReading(fields, other);
      }
    } else {
      var i :| 0 <= i < |fields| && NUL in fields[i];
      var moved := OtherReading(fields, i);
    }
  }

  // Counting NULs: the frame of n fields holds their NULs and n - 1 more.

  function FieldNuls(fields: seq<string>): nat {
    if fields == [] then 0 else Nuls(fields[0]) + FieldNuls(fields[1..])
  }

  lemma {:induction false} NulsConcat(a: string, b: string)
    ensures Nuls(a + b) == Nuls(a) + Nuls(b)
  {
    if b == "" {
      assert a + b == a;
    } else {
      assert (a + b)[..|a + b| - 1] == a + b[..|b| - 1];
      NulsConcat(a, b[..|b| - 1]);
    }
  }

  lemma {:induction false} FrameNuls(fields: seq<string>)
    requires fields != []
    ensures Nuls(Frame(fields)) == FieldNuls(fields) + |fields| - 1
  {
    if |fields| > 1 {
      FrameNuls(fields[1..]);
      NulsConcat(fields[0], [NUL]);
      NulsConcat(fields[0] + [NUL], Frame(fields[1..]));
      assert [NUL][..0] == "";
    }
  }

  lemma {:induction false} NulsZero(s: string)
    ensures Nuls(s) == 0 <==> NUL !in s
  {
    if s != "" {
      NulsZero(s[..|s| - 1]);
      assert s == s[..|s| - 1] + [s[|s| - 1]];
    }
  }

  lemma {:induction false} NoNuls(fields: seq<string>)
    requires NulFree(fields)
    ensures FieldNuls(fields) == 0
  {
    if fields != [] {
      NulsZero(fields[0]);
      assert fields[0] in fields;
      NoNuls(fields[1..]);
    }
  }

  lemma {:induction false} NulsIn(fields: seq<string>)
    requires FieldNuls(fields) == 0
    ensures NulFree(fields)
  {
    if fields != [] {
      NulsZero(fields[0]);
      NulsIn(fields[1..]);
      assert fields == [fields[0]] + fields[1..];
    }
  }

  // ---- The key ------------------------------------------------------------------------------

  function Digit(d: nat): char
    requires d < 10
  {
    ('0' as int + d) as char
  }

  function NatDecimal(n: nat): string {
    if n < 10 then [Digit(n)] else NatDecimal(n / 10) + [Digit(n % 10)]
  }

  function Decimal(n: int): string {
    if n < 0 then "-" + NatDecimal(-n) else NatDecimal(n)
  }

  lemma {:induction false} NatDecimalDigits(n: nat)
    ensures NatDecimal(n) != "" && forall c :: c in NatDecimal(n) ==> '0' <= c <= '9'
  {
    if n >= 10 {
      NatDecimalDigits(n / 10);
    }
  }

  lemma {:induction false} NatDecimalInjective(m: nat, n: nat)
    requires NatDecimal(m) == NatDecimal(n)
    ensures m == n
  {
    var x, y := NatDecimal(m), NatDecimal(n);
    NatDecimalDigits(m / 10);
    NatDecimalDigits(n / 10);
    assert x[|x| - 1] == Digit(m % 10) && y[|y| - 1] == Digit(n % 10);
    if m >= 10 && n >= 10 {
      assert x[..|x| - 1] == NatDecimal(m / 10) && y[..|y| - 1] == NatDecimal(n / 10);
      NatDecimalInjective(m / 10, n / 10);
    }
  }

  lemma DecimalInjective(m: int, n: int)
    requires Decimal(m) == Decimal(n)
    ensures m == n
  {
    var a: nat, b: nat := if m < 0 then -m else m, if n < 0 then -n else n;
    NatDecimalDigits(a);
    NatDecimalDigits(b);
    assert NatDecimal(a)[0] in NatDecimal(a) && NatDecimal(b)[0] in NatDecimal(b);
    assert m < 0 <==> n < 0;
    assert ("-" + NatDecimal(a))[1..] == NatDecimal(a) && ("-" + NatDecimal(b))[1..] == NatDecimal(b);
    NatDecimalInjective(a, b);
  }

  lemma DecimalNulFree(n: int)
    ensures NUL !in Decimal(n)
  {
    NatDecimalDigits(if n < 0 then -n else n);
  }

  datatype Provider = Anthropic | OpenAi

  datatype Task = Dev | Review | Plan | Debug

  datatype Request = Request(task: Task, message: string, provider: Provider, model: string, maxTokens: int, effort: Option<string>)

  datatype Response = Response(text: string, input: nat, output: nat, cacheRead: nat, cacheCreation: nat)

  /**
   * `prompt` are the system prompts, `messages` is the canonical JSON of the message list, `ask` the provider's
   * answer to what it is sent: model, prompt, message, effort and token limit.
   */
  datatype Env = Env(sha: string -> string, prompt: Task -> string, messages: string -> string,
                     ask: (Provider, string, string, string, Option<string>, int) -> Response)

  function ProviderName(p: Provider): string {
    if p.Anthropic? then "anthropic" else "openai"
  }

  function TaskEffort(task: Task): string {
    if task.Plan? || task.Debug? then "xhigh" else "high"
  }

  /** A missing and an empty effort are the same to the key and to both providers. */
  function EffortOrBlank(effort: Option<string>): string {
    if effort.Some? then effort.value else ""
  }

  function Fields(env: Env, r: Request): seq<string> {
    [ProviderName(r.provider), r.model, env.prompt(r.task), env.messages(r.message), EffortOrBlank(r.effort), Decimal(r.maxTokens)]
  }

  function CacheKey(env: Env, r: Request): string {
    env.sha(Frame(Fields(env, r)))
  }

  /** Anthropic always gets an effort, the other backends only a given one. */
  function SentEffort(r: Request): Option<string> {
    var effort := EffortOrBlank(r.effort);
    if effort != "" then Some(effort)
    else if r.provider.Anthropic? then Some(TaskEffort(r.task))
    else None
  }

  function Answer(env: Env, r: Request): Response {
    env.ask(r.provider, r.model, env.prompt(r.task), r.message, SentEffort(r), r.maxTokens)
  }

  /** A fixed environment: no hash collision, four different prompts, canonical JSON that is one-to-one; prompts and
      JSON text hold no NUL, and no prompt is JSON text. */
  ghost predicate Fixed(env: Env) {
    && (forall a, b :: env.sha(a) == env.sha(b) ==> a == b)
    && (forall a, b :: env.prompt(a) == env.prompt(b) ==> a == b)
    && (forall a, b :: env.messages(a) == env.messages(b) ==> a == b)
    && (forall t :: NUL !in env.prompt(t))
    && (forall m :: NUL !in env.messages(m))
    && (forall t, m :: env.prompt(t) != env.messages(m))
  }

  predicate SameRequest(a: Request, b: Request) {
    && a.(effort := None) == b.(effort := None)
    && EffortOrBlank(a.effort) == EffortOrBlank(b.effort)
  }

  /** Prompt and messages as they stand in the framing, between NULs. */
  function Piece(env: Env, t: Task, m: string): string {
    [NUL] + env.prompt(t) + [NUL] + env.messages(m) + [NUL]
  }

  ghost predicate Holds(env: Env, s: string) {
    exists x, t, m, y :: s == x + Piece(env, t, m) + y
  }

  /** The model name or the effort, with the NUL beside it, holds a prompt and messages as the framing writes them. */
  ghost predicate Imitates(env: Env, r: Request) {
    Holds(env, r.model + [NUL]) || Holds(env, [NUL] + EffortOrBlank(r.effort))
  }

  /** The framing from the model name to the effort. */
  function Core(env: Env, r: Request): string {
    r.model + Piece(env, r.task, r.message) + EffortOrBlank(r.effort)
  }

  lemma Framed(env: Env, r: Request)
    ensures Frame(Fields(env, r)) == ProviderName(r.provider) + [NUL] + (Core(env, r) + [NUL] + Decimal(r.maxTokens))
  {
    hide Decimal, ProviderName;
    var fs := Fields(env, r);
    var p, m, e, d := env.prompt(r.task), env.messages(r.message), EffortOrBlank(r.effort), Decimal(r.maxTokens);
    assert fs[4..] == [e, d] && fs[3..] == [m, e, d] && fs[2..] == [p, m, e, d] && fs[1..] == [r.model, p, m, e, d];
    Two(e, d);
    More(m, [e, d]);
    More(p, [m, e, d]);
    More(r.model, [p, m, e, d]);
    More(fs[0], fs[1..]);
    assert fs == [fs[0]] + fs[1..];
    hide Frame;
    assert Core(env, r) == r.model + [NUL] + p + [NUL] + m + [NUL] + e;
  }

  lemma Two(a: string, b: string)
    ensures Frame([a, b]) == a + [NUL] + b
  {
    More(a, [b]);
  }

  lemma More(a: string, rest: seq<string>)
    requires |rest| > 0
    ensures Frame([a] + rest) == a + [NUL] + Frame(rest)
  {
    assert ([a] + rest)[1..] == rest;
  }

  /** The mirror image: where two texts agree from their last NULs on. */
  lemma SplitsAtLastNul(s: string, a: string, t: string, b: string)
    requires NUL !in a && NUL !in b && s + [NUL] + a == t + [NUL] + b
    ensures a == b && s == t
  {
    var x, y := s + [NUL] + a, t + [NUL] + b;
    assert x[|s|] == NUL && y[|t|] == NUL;
    assert |s| == |t|;
    assert x[..|s|] == s && y[..|t|] == t && x[|s| + 1..] == a && y[|t| + 1..] == b;
  }

  /** Two requests share a key exactly when they agree on provider, token limit and everything between. */
  lemma KeySplits(env: Env, a: Request, b: Request)
    requires Fixed(env)
    ensures CacheKey(env, a) == CacheKey(env, b) <==>
            a.provider == b.provider && a.maxTokens == b.maxTokens && Core(env, a) == Core(env, b)
  {
    Framed(env, a);
    Framed(env, b);
    if CacheKey(env, a) == CacheKey(env, b) {
      var x, y := Core(env, a), Core(env, b);
      var d, e := Decimal(a.maxTokens), Decimal(b.maxTokens);
      DecimalNulFree(a.maxTokens);
      DecimalNulFree(b.maxTokens);
      hide Frame, Decimal, Core;
      SplitsAtNul(ProviderName(a.provider), x + [NUL] + d, ProviderName(b.provider), y + [NUL] + e);
      SplitsAtLastNul(x, d, y, e);
      DecimalInjective(a.maxTokens, b.maxTokens);
      assert ProviderName(a.provider)[0] == ProviderName(b.provider)[0];
    }
  }

  /** At the same place, two pieces are the same. */
  lemma SamePiece(env: Env, t: Task, m: string, rest: string, t': Task, m': string, rest': string)
    requires Fixed(env) && Piece(env, t, m) + rest == Piece(env, t', m') + rest'
    ensures t == t' && m == m' && rest == rest'
  {
    var p, j, p', j' := env.prompt(t), env.messages(m), env.prompt(t'), env.messages(m');
    var x, y := Piece(env, t, m) + rest, Piece(env, t', m') + rest';
    assert x[1..] == p + [NUL] + (j + [NUL] + rest) && y[1..] == p' + [NUL] + (j' + [NUL] + rest');
    SplitsAtNul(p, j + [NUL] + rest, p', j' + [NUL] + rest');
    SplitsAtNul(j, rest, j', rest');
  }

  /** Two pieces in one text at different places share at most the NUL between them. */
  lemma PiecesApart(env: Env, t: Task, m: string, rest: string, skip: nat, t': Task, m': string, rest': string)
    requires Fixed(env) && 0 < skip <= |Piece(env, t, m) + rest|
    requires (Piece(env, t, m) + rest)[skip..] == Piece(env, t', m') + rest'
    ensures skip >= |Piece(env, t, m)| - 1
  {
    var p, j, p', j' := env.prompt(t), env.messages(m), env.prompt(t'), env.messages(m');
    var x, y := Piece(env, t, m) + rest, Piece(env, t', m') + rest';
    assert x[skip] == y[0] == NUL;
    if skip == 1 + |p| {
      assert x[skip..][1..] == j + [NUL] + rest && y[1..] == p' + [NUL] + (j' + [NUL] + rest');
      SplitsAtNul(j, rest, p', j' + [NUL] + rest');
      assert false;
    }
  }

  /** Of two different requests with one core, the longer model name and the other's effort imitate the framing. */
  lemma CoresClash(env: Env, a: Request, b: Request)
    requires Fixed(env) && Core(env, a) == Core(env, b) && |a.model| < |b.model|
    ensures Imitates(env, a) && Imitates(env, b)
  {
    var pa, pb := Piece(env, a.task, a.message), Piece(env, b.task, b.message);
    var ea, eb := EffortOrBlank(a.effort), EffortOrBlank(b.effort);
    var s, skip := Core(env, a), |b.model| - |a.model|;
    assert s[|a.model|..] == pa + ea && s[|b.model|..] == pb + eb;
    assert (pa + ea)[skip..] == s[|b.model|..];
    PiecesApart(env, a.task, a.message, ea, skip, b.task, b.message, eb);
    assert pa[|pa| - 1] == NUL && pb[0] == NUL;
    hide Piece;
    var x, y := Overlap(a.model, pa, ea, b.model, pb, eb);
  }

  lemma Overlap(m: string, p: string, e: string, m': string, p': string, e': string) returns (x: string, y: string)
    requires m + p + e == m' + p' + e' && |m'| >= |m| + |p| - 1
    requires |p| > 0 && p[|p| - 1] == NUL && |p'| > 0 && p'[0] == NUL
    ensures m' + [NUL] == m + p + y && [NUL] + e == x + p' + e'
  {
    var s := m + p + e;
    var n := |m| + |p|;
    y, x := s[n..|m'| + 1], s[n - 1..|m'|];
    assert s[..|m'| + 1] == m' + [NUL] && s[..n] == m + p;
    assert s[n - 1..] == [NUL] + e && s[|m'|..] == p' + e';
  }

  lemma SameCore(env: Env, a: Request, b: Request)
    requires Fixed(env) && Core(env, a) == Core(env, b) && |a.model| == |b.model|
    ensures a.model == b.model && a.task == b.task && a.message == b.message
    ensures EffortOrBlank(a.effort) == EffortOrBlank(b.effort)
  {
    var s := Core(env, a);
    var ra, rb := Piece(env, a.task, a.message) + EffortOrBlank(a.effort), Piece(env, b.task, b.message) + EffortOrBlank(b.effort);
    assert s == a.model + ra && s == b.model + rb;
    assert s[..|a.model|] == a.model && s[..|a.model|] == b.model && s[|a.model|..] == ra && s[|a.model|..] == rb;
    SamePiece(env, a.task, a.message, EffortOrBlank(a.effort), b.task, b.message, EffortOrBlank(b.effort));
  }

  /** A request that imitates the framing shares its key with one for another model. */
  lemma Imitated(env: Env, r: Request) returns (other: Request)
    requires Fixed(env) && Imitates(env, r)
    ensures CacheKey(env, other) == CacheKey(env, r) && other.model != r.model && other.provider == r.provider
  {
    var piece, e := Piece(env, r.task, r.message), EffortOrBlank(r.effort);
    assert piece[0] == NUL && piece[|piece| - 1] == NUL;
    assert forall t, m :: |Piece(env, t, m)| >= 3;
    hide Piece;
    if Holds(env, r.model + [NUL]) {
      var u, t, m, v :| r.model + [NUL] == u + Piece(env, t, m) + v;
      var rest := FromModel(r.model, piece, e, u, Piece(env, t, m), v);
      other := r.(task := t, message := m, model := u, effort := Some(rest));
    } else {
      var u, t, m, v :| [NUL] + e == u + Piece(env, t, m) + v;
      var rest := FromEffort(r.model, piece, e, u, Piece(env, t, m), v);
      other := r.(task := t, message := m, model := rest, effort := Some(v));
    }
    KeySplits(env, other, r);
  }

  lemma FromModel(model: string, piece: string, e: string, u: string, p: string, v: string) returns (rest: string)
    requires model + [NUL] == u + p + v && |piece| > 0 && piece[0] == NUL && |p| >= 3
    ensures model + piece + e == u + p + rest && |u| < |model|
  {
    var s, n := model + piece + e, |u + p|;
    rest := s[n..];
    assert s[..|model| + 1] == model + [NUL];
    assert s[..n] == s[..|model| + 1][..n] == u + p;
  }

  lemma FromEffort(model: string, piece: string, e: string, u: string, p: string, v: string) returns (rest: string)
    requires [NUL] + e == u + p + v && |piece| > 0 && piece[|piece| - 1] == NUL && |piece| >= 3
    ensures model + piece + e == rest + p + v && |rest| > |model|
  {
    var s := model + piece + e;
    var n := |model + piece| - 1 + |u|;
    rest := s[..n];
    assert s[|model + piece| - 1..] == [NUL] + e;
    assert s[n..] == ([NUL] + e)[|u|..] == p + v;
  }

  /** Two requests of which one does not imitate the framing share a key exactly when they are the same request. */
  lemma KeyIff(env: Env, a: Request, b: Request)
    requires Fixed(env) && !Imitates(env, b)
    ensures CacheKey(env, a) == CacheKey(env, b) <==> SameRequest(a, b)
  {
    hide CacheKey, Core, Imitates;
    KeySplits(env, a, b);
    if CacheKey(env, a) == CacheKey(env, b) {
      if |a.model| < |b.model| {
        CoresClash(env, a, b);
      } else if |b.model| < |a.model| {
        CoresClash(env, b, a);
      } else {
        SameCore(env, a, b);
      }
    } else if SameRequest(a, b) {
      SameKey(env, a, b);
    }
  }

  lemma SameKey(env: Env, a: Request, b: Request)
    requires SameRequest(a, b)
    ensures CacheKey(env, a) == CacheKey(env, b)
  {
  }

  /**
   * Main result: a request has its key to itself exactly when neither its model name nor its effort imitates the framing.
   */
  lemma KeyUniqueIff(env: Env, r: Request)
    requires Fixed(env)
    ensures (forall a: Request :: CacheKey(env, a) == CacheKey(env, r) ==> SameRequest(a, r)) <==> !Imitates(env, r)
  {
    hide CacheKey, Imitates;
    if Imitates(env, r) {
      var other := Imitated(env, r);
    } else {
      forall a: Request | CacheKey(env, a) == CacheKey(env, r) ensures SameRequest(a, r) {
        KeyIff(env, a, r);
      }
    }
  }

  lemma SameAnswer(env: Env, a: Request, b: Request)
    requires SameRequest(a, b)
    ensures Answer(env, a) == Answer(env, b)
  {
  }

  // ---- A run --------------------------------------------------------------------------------

  /** off, on, or anything else, which is the default policy. */
  datatype Setting = Off | On | Auto

  function IsEnabledFor(p: Provider, setting: Setting): bool {
    match setting
    case Off => false
    case On => true
    case Auto => p.OpenAi?
  }

  type Store = map<string, Response>

  class ResponseCache {
    var store: Store
    /** The requests that reached the provider. */
    ghost var asked: seq<Request>

    constructor ()
      ensures store == map[] && asked == []
    {
      store, asked := map[], [];
    }

    /** run_task: answer from the cache, or ask the provider and write back; `writes` says whether the write works. */
    method RunTask(env: Env, r: Request, setting: Setting, writes: bool) returns (result: Response, cached: bool)
      modifies this
      ensures Served(store, asked, result, cached) == Serve(env, old(store), old(asked), r, setting, writes)
      ensures var active := setting.On? || (setting.Auto? && r.provider.OpenAi?);
              && (cached <==> active && CacheKey(env, r) in old(store))
              && (cached ==> result == old(store)[CacheKey(env, r)] && asked == old(asked) && store == old(store))
              && (!cached ==> asked == old(asked) + [r])
              && (!cached ==>
                    var effort := if r.effort.Some? && r.effort.value != "" then r.effort
                                  else if r.provider == OpenAi then None
                                  else if r.task == Plan || r.task == Debug then Some("xhigh") else Some("high");
                    result == env.ask(r.provider, r.model, env.prompt(r.task), r.message, effort, r.maxTokens))
              && (!cached ==> store == if active && writes then old(store)[CacheKey(env, r) := result] else old(store))
    {
      var active := IsEnabledFor(r.provider, setting);
      var key := "";
      if active {
        key := CacheKey(env, r);
        if key in store {
          return store[key], true;
        }
      }
      result, cached := Answer(env, r), false;
      asked := asked + [r];
      if active && writes {
        store := store[key := result];
      }
    }
  }

  datatype Served = Served(store: Store, asked: seq<Request>, result: Response, cached: bool)

  function Serve(env: Env, store: Store, asked: seq<Request>, r: Request, setting: Setting, writes: bool): Served {
    var active, key := IsEnabledFor(r.provider, setting), CacheKey(env, r);
    if active && key in store then Served(store, asked, store[key], true)
    else
      var result := Answer(env, r);
      Served(if active && writes then store[key := result] else store, asked + [r], result, false)
  }

  /** What happens to a cache: a task is run, or entries are lost (cleared, evicted, corrupted). */
  datatype Op = Ask(request: Request, setting: Setting, writes: bool) | Lose(keys: set<string>)

  datatype State = State(store: Store, asked: seq<Request>, results: seq<Response>)

  function Step(env: Env, s: State, op: Op): State {
    match op
    case Ask(r, setting, writes) =>
      var served := Serve(env, s.store, s.asked, r, setting, writes);
      State(served.store, served.asked, s.results + [served.result])
    case Lose(keys) => s.(store := s.store - keys)
  }

  function Run(env: Env, ops: seq<Op>): State {
    if ops == [] then State(map[], [], []) else Step(env, Run(env, ops[..|ops| - 1]), ops[|ops| - 1])
  }

  /** The answers with the cache off. */
  function Uncached(env: Env, ops: seq<Op>): seq<Response> {
    if ops == [] then []
    else Uncached(env, ops[..|ops| - 1]) + (if ops[|ops| - 1].Ask? then [Answer(env, ops[|ops| - 1].request)] else [])
  }

  /** Every entry is the answer to every request that has its key to itself. */
  ghost predicate StoreRight(env: Env, store: Store) {
    forall r: Request :: !Imitates(env, r) && CacheKey(env, r) in store ==> store[CacheKey(env, r)] == Answer(env, r)
  }

  lemma ServeRight(env: Env, store: Store, asked: seq<Request>, r: Request, setting: Setting, writes: bool)
    requires Fixed(env) && StoreRight(env, store)
    ensures var served := Serve(env, store, asked, r, setting, writes);
            StoreRight(env, served.store) && (!Imitates(env, r) ==> served.result == Answer(env, r))
  {
    hide Fixed, Imitates, CacheKey, Answer;
    var served := Serve(env, store, asked, r, setting, writes);
    forall q: Request | !Imitates(env, q) && CacheKey(env, q) in served.store
      ensures served.store[CacheKey(env, q)] == Answer(env, q)
    {
      if CacheKey(env, q) == CacheKey(env, r) {
        KeyIff(env, r, q);
        SameAnswer(env, q, r);
      }
    }
  }

  /** Whatever is asked and lost, the store stays right. */
  lemma {:induction false} RunRight(env: Env, ops: seq<Op>)
    requires Fixed(env)
    ensures StoreRight(env, Run(env, ops).store)
  {
    if ops != [] {
      hide Fixed, Imitates, CacheKey, Answer, Serve;
      var init, op := ops[..|ops| - 1], ops[|ops| - 1];
      RunRight(env, init);
      if op.Ask? {
        var s := Run(env, init);
        ServeRight(env, s.store, s.asked, op.request, op.setting, op.writes);
      }
    }
  }

  /**
   * Over every sequence of tasks, whatever the policies, failed writes and lost entries, the cache gives the very
   * answers - text and token counts - that the provider would, if no request imitates the framing.
   */
  lemma {:induction false} CacheIsTransparent(env: Env, ops: seq<Op>)
    requires Fixed(env) && forall op :: op in ops && op.Ask? ==> !Imitates(env, op.request)
    ensures Run(env, ops).results == Uncached(env, ops)
  {
    if ops != [] {
      hide Fixed, Imitates, CacheKey, Answer, Serve;
      var init, op := ops[..|ops| - 1], ops[|ops| - 1];
      CacheIsTransparent(env, init);
      assert op in ops;
      if op.Ask? {
        var s := Run(env, init);
        RunRight(env, init);
        ServeRight(env, s.store, s.asked, op.request, op.setting, op.writes);
      }
    }
  }

  /** What a provider answers that only repeats the model name. */
  function Echo(p: Provider, model: string, prompt: string, message: string, effort: Option<string>, maxTokens: int): Response {
    Response(model, 0, 0, 0, 0)
  }

  /** After `ops` the request is answered as by the provider. */
  ghost predicate AnsweredRight(env: Env, ops: seq<Op>, r: Request, setting: Setting) {
    var s := Run(env, ops);
    Serve(env, s.store, s.asked, r, setting, true).result == Answer(env, r)
  }

  /**
   * Main result: a request is answered right after every history of tasks - any requests among them - and for every
   * provider exactly when it does not imitate the framing.
   */
  lemma TransparentIff(env: Env, r: Request)
    requires Fixed(env)
    ensures (forall ask, ops, setting :: AnsweredRight(env.(ask := ask), ops, r, setting)) <==> !Imitates(env, r)
  {
    if Imitates(env, r) {
      var e := env.(ask := Echo);
      SameFraming(env, e, r);
      AnsweredForOther(e, r);
    } else {
      forall ask, ops, setting ensures AnsweredRight(env.(ask := ask), ops, r, setting) {
        var e := env.(ask := ask);
        SameFraming(env, e, r);
        hide Fixed, Imitates, CacheKey, Answer, Serve;
        RunRight(e, ops);
        ServeRight(e, Run(e, ops).store, Run(e, ops).asked, r, setting, true);
      }
    }
  }

  lemma SameFraming(env: Env, e: Env, r: Request)
    requires Fixed(env) && e == env.(ask := e.ask)
    ensures Fixed(e) && (Imitates(e, r) <==> Imitates(env, r))
  {
    assert forall t, m :: Piece(e, t, m) == Piece(env, t, m);
  }

  /** The request that shares the key is asked first, and its answer is given. */
  lemma AnsweredForOther(env: Env, r: Request)
    requires Fixed(env) && Imitates(env, r) && env.ask == Echo
    ensures exists ops :: !AnsweredRight(env, ops, r, On)
  {
    var other := Imitated(env, r);
    var ops := [Ask(other, On, true)];
    hide CacheKey;
    assert ops[..0] == [] && Run(env, []) == State(map[], [], []);
    assert Run(env, ops) == Step(env, Run(env, ops[..0]), ops[0]);
    assert Run(env, ops).store == map[CacheKey(env, other) := Answer(env, other)];
    assert !AnsweredRight(env, ops, r, On);
  }

  /** Nothing lost, every write works, the cache on. */
  predicate Caching(ops: seq<Op>) {
    forall op :: op in ops ==> op.Ask? && op.writes && IsEnabledFor(op.request.provider, op.setting)
  }

  /** With the cache on and working the provider is asked at most once for each distinct request. */
  lemma {:induction false} AskedOnce(env: Env, ops: seq<Op>)
    requires Caching(ops)
    ensures var s := Run(env, ops);
            && (forall i, j | 0 <= i < j < |s.asked| :: !SameRequest(s.asked[i], s.asked[j]))
            && (forall op :: op in ops ==> CacheKey(env, op.request) in s.store)
            && (forall r :: r in s.asked ==> CacheKey(env, r) in s.store)
  {
    if ops != [] {
      hide CacheKey, Answer, SameRequest, IsEnabledFor;
      var init, op := ops[..|ops| - 1], ops[|ops| - 1];
      assert ops == init + [op];
      AskedOnce(env, init);
      var s := Run(env, init);
      forall q | q in s.asked && CacheKey(env, op.request) !in s.store ensures !SameRequest(q, op.request) {
        if SameRequest(q, op.request) {
          SameKey(env, q, op.request);
        }
      }
    }
  }
}
