/**
 The lifetime of the TG.OAUTH2 cookie (internal/proxy/cookie.go:83-172, 230-296):
 how a TTL is written, read back and compared with the clock.

 Durations are whole nanoseconds. A written TTL is kept as its parts (an integer,
 or hundredths with a unit suffix) and rounding is exact to the nearest hundredth.
 Signing is any function of the unsigned cookie.
 */
module CookieTtl {
  import opened Basics

  datatype Unit = Unit(nanos: nat, suffix: string)

  const UNITS: seq<Unit> := [
    Unit(86_400_000_000_000, "d"), Unit(3_600_000_000_000, "h"), Unit(60_000_000_000, "m"),
    Unit(1_000_000_000, "s"), Unit(1_000_000, "ms"), Unit(1_000, "us"), Unit(1, "ns")]

  /** A printed TTL: nanoseconds, or a number with two decimals and a suffix. */
  datatype Ttl = Nanoseconds(n: int) | Airlift(hundredths: int, suffix: string)

  /** num/den to the nearest hundredth, halves to even, in hundredths. */
  function Hundredths(num: int, den: int): int
    requires den > 0
  {
    var q: int, r: int := 100 * num / den, 100 * num % den;
    if 2 * r < den || (2 * r == den && q % 2 == 0) then q else q + 1
  }

  /** The largest unit that fits at least once; nanoseconds if none does. */
  function UnitFor(d: int): (u: Unit)
    ensures u in UNITS && u.nanos > 0
    ensures d >= 1 ==> u.nanos <= d
    ensures forall v :: v in UNITS && v.nanos <= d ==> v.nanos <= u.nanos
  {
    if d >= UNITS[0].nanos then UNITS[0] else if d >= UNITS[1].nanos then UNITS[1]
    else if d >= UNITS[2].nanos then UNITS[2] else if d >= UNITS[3].nanos then UNITS[3]
    else if d >= UNITS[4].nanos then UNITS[4] else if d >= UNITS[5].nanos then UNITS[5] else UNITS[6]
  }

  function Format(d: int, wireCompat: bool): Ttl {
    if wireCompat then Airlift(Hundredths(d, UnitFor(d).nanos), UnitFor(d).suffix) else Nanoseconds(d)
  }

  method AirliftDurationString(d: int) returns (t: Ttl)
    ensures t == Format(d, true)
  {
    hide Hundredths;
    var i := 0;
    while i < |UNITS|
      invariant 0 <= i <= |UNITS|
      invariant forall j :: 0 <= j < i ==> d < UNITS[j].nanos
    {
      if d >= UNITS[i].nanos {
        return Airlift(Hundredths(d, UNITS[i].nanos), UNITS[i].suffix);
      }
      i := i + 1;
    }
    assert UNITS[6].nanos == 1;
    return Airlift(Hundredths(d, 1), "ns");
  }

  function NanosOf(suffix: string): nat {
    if suffix == "d" then 86_400_000_000_000 else if suffix == "h" then 3_600_000_000_000
    else if suffix == "m" then 60_000_000_000 else if suffix == "s" then 1_000_000_000
    else if suffix == "ms" then 1_000_000 else if suffix == "us" then 1_000
    else if suffix == "ns" then 1 else 0
  }

  function Truncate(num: int, den: int): int
    requires den > 0
  {
    if num >= 0 then num / den else -((-num) / den)
  }

  /** Reading a TTL does not depend on the mode it was written in; an unknown suffix reads as zero. */
  function ParseTtl(t: Ttl): int {
    match t
    case Nanoseconds(n) => n
    case Airlift(h, suffix) => Truncate(h * NanosOf(suffix), 100)
  }

  // ---------- How close a TTL comes back ----------

  lemma HundredthsClose(num: int, den: int)
    requires den > 0
    ensures -den <= 2 * (Hundredths(num, den) * den - 100 * num) <= den
    ensures 2 * (Hundredths(num, den) * den - 100 * num) in {-den, den} ==> Hundredths(num, den) % 2 == 0
  {
    var q: int := 100 * num / den;
    DivMod(100 * num, den);
    assert (q + 1) * den == q * den + den;
  }

  lemma DivMod(a: int, den: int)
    requires den > 0
    ensures a == a / den * den + a % den && 0 <= a % den < den
  {
  }

  lemma UnitsAreKnown(d: int)
    ensures NanosOf(UnitFor(d).suffix) == UnitFor(d).nanos
    ensures UnitFor(d).nanos == 1 || UnitFor(d).nanos % 100 == 0
  {
    assert "ms"[0] == 'm' && "us"[0] == 'u' && "ns"[0] == 'n';
  }

  /** A whole number of units, fewer than make up the next one, is written as that number and the unit's suffix. */
  lemma WholeUnits(n: nat)
    requires n > 0
    ensures n < 1_000 ==> Format(n, true) == Airlift(100 * n, "ns")
    ensures n < 1_000 ==> Format(1_000 * n, true) == Airlift(100 * n, "us")
    ensures n < 1_000 ==> Format(1_000_000 * n, true) == Airlift(100 * n, "ms")
    ensures n < 60 ==> Format(1_000_000_000 * n, true) == Airlift(100 * n, "s")
    ensures n < 60 ==> Format(60_000_000_000 * n, true) == Airlift(100 * n, "m")
    ensures n < 24 ==> Format(3_600_000_000_000 * n, true) == Airlift(100 * n, "h")
    ensures Format(86_400_000_000_000 * n, true) == Airlift(100 * n, "d")
    ensures Format(n, false) == Nanoseconds(n)
  {
    hide Hundredths;
    WholeHundredths(n, 1);
    WholeHundredths(n, 1_000);
    WholeHundredths(n, 1_000_000);
    WholeHundredths(n, 1_000_000_000);
    WholeHundredths(n, 60_000_000_000);
    WholeHundredths(n, 3_600_000_000_000);
    WholeHundredths(n, 86_400_000_000_000);
  }

  lemma WholeHundredths(n: nat, den: nat)
    requires den > 0
    ensures Hundredths(den * n, den) == 100 * n
  {
    assert 100 * (den * n) == den * (100 * n);
    Multiples(100 * n, den);
  }

  lemma Multiples(k: int, den: int)
    requires den > 0
    ensures den * k / den == k && den * k % den == 0
  {
    var q, r := den * k / den, den * k % den;
    DivMod(den * k, den);
    assert den * (k - q) == r;
    if k > q { AtLeastOnce(den, k - q); }
    if k < q { AtLeastOnce(den, q - k); }
  }

  lemma AtLeastOnce(den: int, x: int)
    requires den > 0 && x >= 1
    ensures den * x >= den && den * -x <= -den
  {
  }

  lemma ScaleDown(h: int, c: int)
    ensures h * (100 * c) == 100 * (h * c)
    ensures Truncate(h * (100 * c), 100) == h * c
  {
    var x: int := h * c;
    assert h * (100 * c) == 100 * x;
    assert Truncate(100 * x, 100) == x;
  }

  lemma WithinTwoHundredth(d: int, nanos: int, scaled: int, back: int)
    requires 0 < nanos <= d && scaled == 100 * back && -nanos <= 2 * (scaled - 100 * d) <= nanos
    ensures -d <= 200 * (back - d) <= d && back > 0
  {
  }

  /** A number with a known suffix reads as that many units, cut off towards zero; one without reads as zero. */
  lemma ReadsUnits(h: int, suffix: string, nanos: nat)
    requires (suffix, nanos) in {("d", 86_400_000_000_000), ("h", 3_600_000_000_000), ("m", 60_000_000_000),
                                 ("s", 1_000_000_000), ("ms", 1_000_000), ("us", 1_000), ("ns", 1)}
             || (suffix !in {"d", "h", "m", "s", "ms", "us", "ns"} && nanos == 0)
    ensures
      var x, back := h * nanos, ParseTtl(Airlift(h, suffix));
      && (x >= 0 ==> 0 <= 100 * back <= x < 100 * back + 100)
      && (x <= 0 ==> 100 * back - 100 < x <= 100 * back <= 0)
  {
    SuffixNanos(suffix, nanos);
    hide NanosOf;
  }

  lemma SuffixNanos(suffix: string, nanos: nat)
    requires (suffix, nanos) in {("d", 86_400_000_000_000), ("h", 3_600_000_000_000), ("m", 60_000_000_000),
                                 ("s", 1_000_000_000), ("ms", 1_000_000), ("us", 1_000), ("ns", 1)}
             || (suffix !in {"d", "h", "m", "s", "ms", "us", "ns"} && nanos == 0)
    ensures NanosOf(suffix) == nanos
  {
    assert "ms"[0] == 'm' && "us"[0] == 'u' && "ns"[0] == 'n' && |"m"| == 1 && |"ms"| == 2;
  }

  /** In both modes the TTL comes back within 1/200 of itself, and in nanosecond mode exactly. */
  lemma TtlRoundTrip(d: int, wireCompat: bool)
    ensures !wireCompat || d < 1_000 ==> ParseTtl(Format(d, wireCompat)) == d
    ensures d >= 0 ==> -d <= 200 * (ParseTtl(Format(d, wireCompat)) - d) <= d
    ensures d > 0 ==> ParseTtl(Format(d, wireCompat)) > 0
  {
    if wireCompat {
      var u := UnitFor(d);
      UnitsAreKnown(d);
      var h := Hundredths(d, u.nanos);
      if u.nanos == 1 {
        assert h == 100 * d;
        ScaleDown(d, 1);
        assert h * 1 == d * (100 * 1);
      } else {
        assert u.nanos >= 1_000 by { assert u in UNITS; }
        assert d >= u.nanos;
        CoarseRoundTrip(d, u.nanos, u.nanos / 100);
      }
    }
  }

  lemma CoarseRoundTrip(d: int, nanos: nat, c: nat)
    requires nanos == 100 * c && c > 0 && d >= nanos
    ensures
      var back := Truncate(Hundredths(d, nanos) * nanos, 100);
      -d <= 200 * (back - d) <= d && back > 0
  {
    hide Hundredths; hide Truncate;
    var h := Hundredths(d, nanos);
    HundredthsClose(d, nanos);
    ScaleDown(h, c);
    WithinTwoHundredth(d, nanos, h * nanos, h * c);
  }

  // ---------- Issuing and validating ----------

  datatype Unsigned = Unsigned(
    backend: string,
    deletePaths: seq<string>,
    name: string,
    routingPaths: seq<string>,
    ts: int,
    ttl: Ttl)
  datatype Cookie = Cookie(payload: Unsigned, signature: string)

  /** What a client sends back: a cookie, or bytes that do not decode to one. */
  datatype Received = Decoded(cookie: Cookie) | Garbage

  datatype Verdict = Valid(deletePaths: seq<string>) | Expired | Tampered

  type Mac = Unsigned -> string

  const MILLI := 1_000_000

  /** `now` is the clock in nanoseconds; the cookie keeps whole milliseconds. */
  function Issue(mac: Mac, backend: string, ttl: int, wireCompat: bool, now: nat): Cookie {
    var u := Unsigned(backend, ["/logout", "/oauth2/logout"], "TG.OAUTH2", ["/oauth2", "/logout", "/oauth2/logout"],
                      now / MILLI, Format(ttl, wireCompat));
    Cookie(u, mac(u))
  }

  function Validate(mac: Mac, r: Received, now: nat): Verdict {
    match r
    case Garbage => Tampered
    case Decoded(c) =>
      if mac(c.payload) != c.signature then Tampered
      else
        var ttl := ParseTtl(c.payload.ttl);
        if ttl > 0 && now - c.payload.ts * MILLI > ttl then Expired else Valid(c.payload.deletePaths)
  }

  lemma IssuedAge(issued: nat, now: nat)
    requires issued <= now
    ensures now - issued <= now - issued / MILLI * MILLI < now - issued + MILLI
  {
  }

  /**
   A cookie with a positive TTL is accepted while its age plus a millisecond is at
   most 0.995 of the TTL, and is reported expired, never tampered, beyond 1.005.
   */
  lemma IssuedCookieLives(mac: Mac, backend: string, ttl: int, wireCompat: bool, issued: nat, now: nat)
    requires ttl > 0 && issued <= now
    ensures
      var v := Validate(mac, Decoded(Issue(mac, backend, ttl, wireCompat, issued)), now);
      && (200 * (now - issued + MILLI) <= 199 * ttl ==> v == Valid(["/logout", "/oauth2/logout"]))
      && (200 * (now - issued) > 201 * ttl ==> v == Expired)
      && !v.Tampered?
  {
    hide Format; hide ParseTtl;
    TtlRoundTrip(ttl, wireCompat);
    IssuedAge(issued, now);
  }

  /** An issued cookie ever expires if and only if its TTL is positive. */
  lemma ExpiresIff(mac: Mac, backend: string, ttl: int, wireCompat: bool, issued: nat)
    ensures (exists now: nat ::
               issued <= now && Validate(mac, Decoded(Issue(mac, backend, ttl, wireCompat, issued)), now) == Expired)
            <==> ttl > 0
  {
    hide Format; hide ParseTtl;
    TtlRoundTrip(ttl, wireCompat);
    if ttl > 0 {
      var now: nat := issued + 2 * ttl;
      IssuedCookieLives(mac, backend, ttl, wireCompat, issued, now);
      assert Validate(mac, Decoded(Issue(mac, backend, ttl, wireCompat, issued)), now) == Expired;
    }
  }

  // ---------- What the signature protects ----------

  /**
   Whatever is sent back and whenever: it counts as tampered if and only if it does not
   decode or its signature is not that of its payload; else it is expired exactly when
   its written TTL is positive and its age is more, and if not, the delete paths are
   those that were signed.
   */
  lemma VerdictIs(mac: Mac, r: Received, now: nat)
    ensures Validate(mac, r, now) == Tampered <==> (r.Decoded? ==> r.cookie.signature != mac(r.cookie.payload))
    ensures Validate(mac, r, now) == Expired <==>
            r.Decoded? && r.cookie.signature == mac(r.cookie.payload)
            && 0 < ParseTtl(r.cookie.payload.ttl) < now - r.cookie.payload.ts * MILLI
    ensures forall paths :: Validate(mac, r, now) == Valid(paths) ==>
              r.Decoded? && r.cookie.signature == mac(r.cookie.payload) && paths == r.cookie.payload.deletePaths
  {
  }

  /** An issued cookie with any other payload put into it is tampered, if the signature tells the two apart. */
  lemma ReplacedPayloadIsTampered(mac: Mac, backend: string, ttl: int, wireCompat: bool, issued: nat,
                                  other: Unsigned, now: nat)
    requires
      var c := Issue(mac, backend, ttl, wireCompat, issued);
      mac(other) != mac(c.payload)
    ensures
      var c := Issue(mac, backend, ttl, wireCompat, issued);
      Validate(mac, Decoded(Cookie(other, c.signature)), now) == Tampered
  {
    VerdictIs(mac, Decoded(Cookie(other, Issue(mac, backend, ttl, wireCompat, issued).signature)), now);
  }

  // ---------- The cookie on every response ----------

  /** What happens to the response: nothing, a cookie is set or deleted, or it becomes an error. */
  datatype Effect = Unchanged | SetCookie(cookie: Cookie) | DeleteCookie | Refused

  /** `secret` is the signing function, if a secret is configured. */
  datatype Cookies = Cookies(secret: Option<Mac>, ttl: int, wireCompat: bool)

  method MatchesAny(path: string, paths: seq<string>) returns (found: bool)
    ensures found <==> path in paths
  {
    for i := 0 to |paths|
      invariant path !in paths[..i]
    {
      if paths[i] == path {
        return true;
      }
      assert paths[..i + 1] == paths[..i] + [paths[i]];
    }
    assert paths[..|paths|] == paths;
    return false;
  }

  function Applied(cfg: Cookies, sent: Option<Received>, path: string, backend: string, now: nat): Effect {
    if cfg.secret.None? then Unchanged
    else if sent.Some? then
      match Validate(cfg.secret.value, sent.value, now)
      case Tampered => Refused
      case Expired => DeleteCookie
      case Valid(paths) => if path in paths then DeleteCookie else Unchanged
    else if "/oauth2" <= path then SetCookie(Issue(cfg.secret.value, backend, cfg.ttl, cfg.wireCompat, now))
    else Unchanged
  }

  method ApplyCookies(cfg: Cookies, sent: Option<Received>, path: string, backend: string, now: nat)
    returns (e: Effect)
    ensures e == Applied(cfg, sent, path, backend, now)
  {
    if cfg.secret.None? {
      return Unchanged;
    }
    if sent.Some? {
      var v := Validate(cfg.secret.value, sent.value, now);
      if v.Tampered? {
        return Refused;
      }
      if v.Expired? {
        return DeleteCookie;
      }
      var matches := MatchesAny(path, v.deletePaths);
      return if matches then DeleteCookie else Unchanged;
    }
    if |path| >= |"/oauth2"| && path[..|"/oauth2"|] == "/oauth2" {
      return SetCookie(Issue(cfg.secret.value, backend, cfg.ttl, cfg.wireCompat, now));
    }
    return Unchanged;
  }

  /**
   The life of a cookie. A first request under /oauth2 gets one for its backend. Sent
   back with any later request it is never refused; while it lives it is left alone
   except on the two logout paths, which delete it, and when it has run out it is
   deleted. With another payload, or with bytes that do not decode, the response is
   refused.
   */
  lemma CookieLife(mac: Mac, ttl: int, wireCompat: bool, tail: string, backend: string, issued: nat,
                   path: string, now: nat, other: Unsigned)
    requires ttl > 0 && issued <= now
    ensures
      var cfg := Cookies(Some(mac), ttl, wireCompat);
      var first := Applied(cfg, None, "/oauth2" + tail, backend, issued);
      && first.SetCookie? && first.cookie.payload.backend == backend && first.cookie.payload.name == "TG.OAUTH2"
      && first.cookie.payload.ts == issued / 1_000_000
      && first.cookie.payload.routingPaths == ["/oauth2", "/logout", "/oauth2/logout"]
      && var again := Applied(cfg, Some(Decoded(first.cookie)), path, backend, now);
      && !again.Refused? && !again.SetCookie?
      && (200 * (now - issued + MILLI) <= 199 * ttl ==>
            (again == DeleteCookie <==> path == "/logout" || path == "/oauth2/logout"))
      && (200 * (now - issued) > 201 * ttl ==> again == DeleteCookie)
      && (mac(other) != mac(first.cookie.payload) ==>
            Applied(cfg, Some(Decoded(Cookie(other, first.cookie.signature))), path, backend, now) == Refused)
      && Applied(cfg, Some(Garbage), path, backend, now) == Refused
      && (!("/oauth2" <= path) ==> Applied(cfg, None, path, backend, now) == Unchanged)
      && Applied(cfg.(secret := None), Some(Garbage), path, backend, now) == Unchanged
  {
    hide Format; hide ParseTtl;
    IssuedCookieLives(mac, backend, ttl, wireCompat, issued, now);
  }
}
