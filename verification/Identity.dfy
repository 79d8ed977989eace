/** What identifies a request and its owner: digests of labelled, length-prefixed components
    (src/request.rs: hash_bytes, fingerprint, from_headers, extract_session_key). A digest stands for the bytes it was
    computed from, and its hexadecimal text for the text of those bytes. */
module Identity {
  import opened Basics

  // ---- Framing ----

  function Power256(width: nat): nat {
    if width == 0 then 1 else 256 * Power256(width - 1)
  }

  // `u64::to_be_bytes` for width 8.
  function BigEndian(n: nat, width: nat): (r: Bytes)
    ensures |r| == width
  {
    if width == 0 then [] else BigEndian(n / 256, width - 1) + [n % 256]
  }

  function Chunk(value: Bytes): Bytes {
    BigEndian(|value|, 8) + value
  }

  datatype Component = Component(name: Bytes, value: Bytes)

  function Frame(c: Component): (r: Bytes)
    ensures r != []
  {
    Chunk(c.name) + Chunk(c.value)
  }

  // Everything fed to the hasher.
  function Framed(components: seq<Component>): Bytes {
    if components == [] then [] else Frame(components[0]) + Framed(components[1..])
  }

  // Lengths fit the 64-bit prefix.
  predicate Measured(components: seq<Component>) {
    forall i | 0 <= i < |components| :: |components[i].name| < Power256(8) && |components[i].value| < Power256(8)
  }

  lemma {:induction false} SplitEqual(a: Bytes, b: Bytes, restA: Bytes, restB: Bytes)
    requires |a| == |b| && a + restA == b + restB
    ensures a == b && restA == restB
  {
    assert (a + restA)[..|a|] == a && (a + restA)[|a|..] == restA;
    assert (b + restB)[..|b|] == b && (b + restB)[|b|..] == restB;
  }

  lemma {:induction false} BigEndianInjective(n: nat, m: nat, width: nat)
    requires n < Power256(width) && m < Power256(width) && BigEndian(n, width) == BigEndian(m, width)
    ensures n == m
  {
    if width > 0 {
      SplitEqual(BigEndian(n / 256, width - 1), BigEndian(m / 256, width - 1), [n % 256], [m % 256]);
      BigEndianInjective(n / 256, m / 256, width - 1);
      assert [n % 256][0] == [m % 256][0];
    }
  }

  lemma {:induction false} ChunkDelimits(a: Bytes, b: Bytes, restA: Bytes, restB: Bytes)
    requires |a| < Power256(8) && |b| < Power256(8) && Chunk(a) + restA == Chunk(b) + restB
    ensures a == b && restA == restB
  {
    assert Chunk(a) + restA == BigEndian(|a|, 8) + (a + restA);
    assert Chunk(b) + restB == BigEndian(|b|, 8) + (b + restB);
    SplitEqual(BigEndian(|a|, 8), BigEndian(|b|, 8), a + restA, b + restB);
    BigEndianInjective(|a|, |b|, 8);
    SplitEqual(a, b, restA, restB);
  }

  lemma {:induction false} FrameDelimits(a: Component, b: Component, restA: Bytes, restB: Bytes)
    requires Measured([a]) && Measured([b]) && Frame(a) + restA == Frame(b) + restB
    ensures a == b && restA == restB
  {
    hide Chunk, Power256;
    assert [a][0] == a && [b][0] == b;
    assert Frame(a) + restA == Chunk(a.name) + (Chunk(a.value) + restA);
    assert Frame(b) + restB == Chunk(b.name) + (Chunk(b.value) + restB);
    ChunkDelimits(a.name, b.name, Chunk(a.value) + restA, Chunk(b.value) + restB);
    ChunkDelimits(a.value, b.value, restA, restB);
  }

  /** Two lists of labelled components are hashed from the same bytes only if they are the same list. */
  lemma {:induction false} FramingIsInjective(xs: seq<Component>, ys: seq<Component>)
    requires Measured(xs) && Measured(ys) && Framed(xs) == Framed(ys)
    ensures xs == ys
  {
    hide Frame, Power256;
    if xs != [] && ys != [] {
      FrameDelimits(xs[0], ys[0], Framed(xs[1..]), Framed(ys[1..]));
      FramingIsInjective(xs[1..], ys[1..]);
      assert xs == [xs[0]] + xs[1..] && ys == [ys[0]] + ys[1..];
    }
  }

  // ---- Text ----

  predicate IsAscii(s: string) {
    forall i | 0 <= i < |s| :: s[i] as int < 128
  }

  function Ascii(s: string): (r: Bytes)
    requires IsAscii(s)
    ensures |r| == |s|
  {
    seq(|s|, i requires 0 <= i < |s| => s[i] as int)
  }

  function HexDigit(n: nat): (r: Byte)
    requires n < 16
    ensures r < 58 || 97 <= r < 103
  {
    if n < 10 then 48 + n else 87 + n
  }

  function Hex(bytes: Bytes): (r: Bytes)
    ensures |r| == 2 * |bytes|
    ensures forall i | 0 <= i < |r| :: 48 <= r[i] < 58 || 97 <= r[i] < 103
  {
    if bytes == [] then [] else [HexDigit(bytes[0] / 16), HexDigit(bytes[0] % 16)] + Hex(bytes[1..])
  }

  lemma {:induction false} HexInjective(a: Bytes, b: Bytes)
    requires Hex(a) == Hex(b)
    ensures a == b
  {
    assert |Hex(a)| == |Hex(b)|;
    if a != [] {
      assert Hex(a)[0] == Hex(b)[0] && Hex(a)[1] == Hex(b)[1];
      assert Hex(a)[2..] == Hex(a[1..]) && Hex(b)[2..] == Hex(b[1..]);
      HexInjective(a[1..], b[1..]);
      assert a[0] == b[0];
      assert a == [a[0]] + a[1..] && b == [b[0]] + b[1..];
    }
  }

  // ---- Who asks ----

  datatype UpstreamAuth = UpstreamAuth(authorization: Bytes, organization: Option<Bytes>, project: Option<Bytes>)

  function Optional(name: Bytes, value: Option<Bytes>): seq<Component> {
    if value.Some? then [Component(name, value.value)] else []
  }

  function AuthComponents(auth: UpstreamAuth): seq<Component> {
    [Component(Ascii("authorization"), auth.authorization)]
    + Optional(Ascii("organization"), auth.organization) + Optional(Ascii("project"), auth.project)
  }

  function Fingerprint(auth: UpstreamAuth): Bytes {
    Hex(Framed(AuthComponents(auth)))
  }

  predicate Fits(value: Bytes) {
    |value| < Power256(8)
  }

  predicate OptionFits(value: Option<Bytes>) {
    value.Some? ==> Fits(value.value)
  }

  lemma {:induction false} LabelsFit()
    ensures Power256(8) > 1000
  {
    assert Power256(2) == 65536;
    assert Power256(8) >= Power256(2) by {
      PowerGrows(2, 8);
    }
  }

  lemma {:induction false} PowerGrows(a: nat, b: nat)
    requires a <= b
    ensures Power256(a) <= Power256(b)
  {
    if a < b {
      PowerGrows(a, b - 1);
    }
  }

  /** Credentials share a durable namespace only if they agree in every component: an organization is never taken for a
      project. */
  lemma {:induction false} FingerprintIdentifies(a: UpstreamAuth, b: UpstreamAuth)
    requires Fits(a.authorization) && OptionFits(a.organization) && OptionFits(a.project)
    requires Fits(b.authorization) && OptionFits(b.organization) && OptionFits(b.project)
    ensures Fingerprint(a) == Fingerprint(b) <==> a == b
  {
    hide Framed, Hex, Power256, Ascii;
    if Fingerprint(a) == Fingerprint(b) {
      LabelsFit();
      assert Measured(AuthComponents(a)) && Measured(AuthComponents(b));
      HexInjective(Framed(AuthComponents(a)), Framed(AuthComponents(b)));
      FramingIsInjective(AuthComponents(a), AuthComponents(b));
      var x, y := AuthComponents(a), AuthComponents(b);
      assert x[0] == y[0];
      assert |x| > 1 ==> x[1] == y[1];
      assert |x| > 2 ==> x[2] == y[2];
      assert |Ascii("organization")| != |Ascii("project")|;
    }
  }

  // ---- Which session ----

  // Where a request's session comes from.
  datatype SessionSource =
    | FromHeader(value: Bytes)
    | FromMetadata(thread: Bytes, turn: Bytes)
    | FromIdempotencyKey(key: Bytes)

  function Joined(thread: Bytes, turn: Bytes): Bytes {
    thread + [0] + turn
  }

  function SessionText(source: SessionSource): Bytes {
    match source
    case FromHeader(value) => Ascii("session-header:") + value
    case FromMetadata(thread, turn) => Hex(Joined(thread, turn))
    case FromIdempotencyKey(key) => Ascii("idempotency:") + key
  }

  // Another thread and turn, with a thread that is not blank, read the same once joined.
  ghost predicate Ambiguous(thread: Bytes, turn: Bytes, blank: Bytes -> bool) {
    exists other, rest ::
      (other, rest) != (thread, turn) && !blank(other) && Joined(other, rest) == Joined(thread, turn)
  }

  // A NUL in the turn, or one in the thread after something that is not blank.
  predicate HasInnerNul(thread: Bytes, turn: Bytes, blank: Bytes -> bool) {
    || 0 in turn
    || exists i | 0 <= i < |thread| :: thread[i] == 0 && !blank(thread[..i])
  }

  /** The thread and turn of a session are joined by a NUL without their lengths, so they can be told apart exactly when
      neither hides one. */
  lemma {:induction false} JoinedIsAmbiguous(thread: Bytes, turn: Bytes, blank: Bytes -> bool)
    requires !blank(thread) && forall x, y :: !blank(x) ==> !blank(x + y)
    ensures Ambiguous(thread, turn, blank) <==> HasInnerNul(thread, turn, blank)
  {
    var text := Joined(thread, turn);
    if 0 in turn {
      var i :| 0 <= i < |turn| && turn[i] == 0;
      var other, rest := thread + ([0] + turn[..i]), turn[i + 1..];
      assert turn == turn[..i] + [0] + rest;
      assert Joined(other, rest) == text && |other| != |thread|;
    } else if HasInnerNul(thread, turn, blank) {
      var i :| 0 <= i < |thread| && thread[i] == 0 && !blank(thread[..i]);
      var other, rest := thread[..i], thread[i + 1..] + [0] + turn;
      assert thread == thread[..i] + [0] + thread[i + 1..];
      assert Joined(other, rest) == text && |other| != |thread|;
    }
    if Ambiguous(thread, turn, blank) {
      var other, rest :| (other, rest) != (thread, turn) && !blank(other) && Joined(other, rest) == text;
      OtherSplit(thread, turn, other, rest);
      if |other| < |thread| {
        assert thread[..|other|] == other;
      }
    }
  }

  // Two ways to split the same text at a NUL: the longer thread holds the other's NUL.
  lemma {:induction false} OtherSplit(thread: Bytes, turn: Bytes, other: Bytes, rest: Bytes)
    requires (other, rest) != (thread, turn) && Joined(other, rest) == Joined(thread, turn)
    ensures |other| != |thread|
    ensures |other| < |thread| ==> thread[|other|] == 0 && thread[..|other|] == other
    ensures |other| > |thread| ==> 0 in turn
  {
    var text := Joined(thread, turn);
    assert text[..|thread|] == thread && text[|thread| + 1..] == turn;
    assert text[..|other|] == other && text[|other| + 1..] == rest;
    assert text[|other|] == 0 == text[|thread|];
    if |other| > |thread| {
      assert turn[|other| - |thread| - 1] == text[|other|];
    }
  }

  // Two different sessions that read the same: thread "a" turn "b NUL c", and thread "a NUL b" turn "c".
  lemma {:induction false} SessionsCanCollide()
    ensures FromMetadata([97], [98, 0, 99]) != FromMetadata([97, 0, 98], [99])
    ensures SessionText(FromMetadata([97], [98, 0, 99])) == SessionText(FromMetadata([97, 0, 98], [99]))
  {
    assert Joined([97], [98, 0, 99]) == Joined([97, 0, 98], [99]);
  }

  predicate PlainSession(source: SessionSource) {
    source.FromMetadata? ==> 0 !in source.thread && 0 !in source.turn
  }

  /** Sessions from different sources, or different ones from the same source, never read the same, unless a thread or
      turn holds a NUL. */
  lemma {:induction false} SessionIdentifies(a: SessionSource, b: SessionSource)
    requires PlainSession(a) && PlainSession(b)
    ensures SessionText(a) == SessionText(b) <==> a == b
  {
    var header, key := Ascii("session-header:"), Ascii("idempotency:");
    assert header[0] == 115 && key[0] == 105;
    assert a.FromHeader? ==> SessionText(a)[|header|..] == a.value;
    assert b.FromHeader? ==> SessionText(b)[|header|..] == b.value;
    assert a.FromIdempotencyKey? ==> SessionText(a)[|key|..] == a.key;
    assert b.FromIdempotencyKey? ==> SessionText(b)[|key|..] == b.key;
    if SessionText(a) == SessionText(b) {
      assert SessionText(a)[0] == SessionText(b)[0];
      if a.FromMetadata? && b.FromMetadata? {
        HexInjective(Joined(a.thread, a.turn), Joined(b.thread, b.turn));
        if a != b {
          OtherSplit(a.thread, a.turn, b.thread, b.turn);
        }
      }
    }
  }

  // ---- Which request ----

  datatype RequestIdentity = RequestIdentity(
    provider: Bytes, session: SessionSource, key: Option<Bytes>, request: Bytes)

  // Every component fits its length prefix.
  predicate Proper(r: RequestIdentity) {
    Fits(r.provider) && Fits(SessionText(r.session)) && OptionFits(r.key) && Fits(r.request)
  }

  function CommonComponents(r: RequestIdentity): seq<Component> {
    [Component(Ascii("provider"), r.provider), Component(Ascii("session"), SessionText(r.session))]
    + Optional(Ascii("idempotency"), r.key)
  }

  function RequestHash(r: RequestIdentity): Bytes {
    Hex(Framed(CommonComponents(r) + [Component(Ascii("request"), r.request)]))
  }

  function IdempotencyHash(r: RequestIdentity): Option<Bytes> {
    if r.key.None? then None
    else Some(Hex(Framed(CommonComponents(r) + [Component(Ascii("identity"), Ascii("idempotency-v1"))])))
  }

  lemma {:induction false} SameComponents(a: RequestIdentity, b: RequestIdentity, lastA: Component, lastB: Component)
    requires Proper(a) && Proper(b) && Measured([lastA]) && Measured([lastB]) && lastA.name == lastB.name
    requires Hex(Framed(CommonComponents(a) + [lastA])) == Hex(Framed(CommonComponents(b) + [lastB]))
    ensures a.provider == b.provider && SessionText(a.session) == SessionText(b.session)
    ensures a.key == b.key && lastA == lastB
  {
    hide Framed, Hex, Power256, Ascii;
    var xs, ys := CommonComponents(a) + [lastA], CommonComponents(b) + [lastB];
    LabelsFit();
    HexInjective(Framed(xs), Framed(ys));
    FramingIsInjective(xs, ys);
    assert xs[0] == ys[0] && xs[1] == ys[1] && xs[2] == ys[2] && xs[|xs| - 1] == ys[|ys| - 1];
  }

  /** A request hash stands for exactly one provider, session, idempotency key and body; an idempotency hash for exactly
      one provider, session and key. So requests with the same request hash have the same idempotency hash. */
  lemma {:induction false} HashesIdentify(a: RequestIdentity, b: RequestIdentity)
    requires Proper(a) && Proper(b)
    ensures RequestHash(a) == RequestHash(b) <==>
            && a.provider == b.provider && SessionText(a.session) == SessionText(b.session)
            && a.key == b.key && a.request == b.request
    ensures a.key.Some? || b.key.Some? ==>
              (IdempotencyHash(a) == IdempotencyHash(b) <==>
               a.provider == b.provider && SessionText(a.session) == SessionText(b.session) && a.key == b.key)
    ensures RequestHash(a) == RequestHash(b) ==> IdempotencyHash(a) == IdempotencyHash(b)
  {
    hide Framed, Hex, SessionText;
    LabelsFit();
    if RequestHash(a) == RequestHash(b) {
      SameComponents(a, b, Component(Ascii("request"), a.request), Component(Ascii("request"), b.request));
    }
    var last := Component(Ascii("identity"), Ascii("idempotency-v1"));
    if a.key.Some? && b.key.Some? && IdempotencyHash(a) == IdempotencyHash(b) {
      SameComponents(a, b, last, last);
    }
  }
}
