/** SPIFFE identities, their strict URI syntax, and compiled policy patterns. */
module SpiffeIds {
  import opened ByteStrings
  import opened SegmentGlobs

  datatype SpiffeId = SpiffeId(trustDomain: Str, namespace: Str, serviceAccount: Str)

  datatype ParseError =
    | MissingScheme
    | WrongScheme
    | EmptyPath
    | MissingTrustDomain
    | BadAuthority
    | MalformedPath
    | QueryOrFragment
    | EmptySegment

  datatype Result<+T> = Ok(value: T) | Err(error: ParseError)

  const SLASH: byte := 47
  const QUERY: byte := 63
  const FRAGMENT: byte := 35

  /** `spiffe://` */
  const SCHEME: Str := [115, 112, 105, 102, 102, 101, 58, 47, 47]
  /** `ns/` */
  const NS: Str := [110, 115, 47]
  /** `sa/` */
  const SA: Str := [115, 97, 47]

  function LowerByte(b: byte): byte {
    if 65 <= b <= 90 then b + 32 else b
  }

  /** `to_ascii_lowercase`. */
  function Lower(s: Str): (r: Str)
    ensures |r| == |s| && forall i | 0 <= i < |s| :: r[i] == LowerByte(s[i])
  {
    seq(|s|, i requires 0 <= i < |s| => LowerByte(s[i]))
  }

  /** Lower case in the alphabet's own terms: the letters `A` to `Z` become `a` to `z` in the same order, and
      every other byte stays. */
  lemma LowerIsAsciiLower(s: Str, i: nat, j: nat)
    requires i < |s| && j < |s|
    ensures !(65 <= Lower(s)[i] <= 90)
    ensures 65 <= s[i] <= 90 <==> Lower(s)[i] != s[i]
    ensures 65 <= s[i] <= 90 ==> 97 <= Lower(s)[i] <= 122
    ensures 65 <= s[i] < s[j] <= 90 ==> Lower(s)[i] < Lower(s)[j]
    ensures 65 <= s[i] <= 90 && s[j] == s[i] + 32 ==> Lower(s)[i] == s[j]
  {
  }

  predicate FreeOf(s: Str, bytes: set<byte>) {
    forall i | 0 <= i < |s| :: s[i] !in bytes
  }

  /** `iter().position`: the first offset holding one of `bytes`. */
  function Position(s: Str, bytes: set<byte>): (r: Option<nat>)
    ensures r.None? <==> FreeOf(s, bytes)
    ensures r.Some? ==> r.value < |s| && s[r.value] in bytes && FreeOf(s[..r.value], bytes)
  {
    if s == [] then None
    else if s[0] in bytes then Some(0)
    else
      match Position(s[1..], bytes)
      case None => assert s == [s[0]] + s[1..]; None
      case Some(i) => assert s[..i + 1] == [s[0]] + s[1..][..i]; Some(i + 1)
  }

  /** `strip_prefix`. */
  function StripPrefix(s: Str, prefix: Str): (r: Option<Str>)
    ensures r.Some? <==> prefix <= s
    ensures r.Some? ==> s == prefix + r.value
  {
    if prefix <= s then Some(s[|prefix|..]) else None
  }

  predicate BadAuthorityByte(b: byte) {
    b <= 32 || b == 127 || b in {64, 58, 91, 93, 92, QUERY, FRAGMENT}
  }

  // ------------------------------------------------------------ parse and print

  /** `parse_spiffe_uri`, with the error text reduced to its reason. */
  function ParseUri(uri: Str): Result<SpiffeId> {
    if |uri| < |SCHEME| then Err(MissingScheme)
    else if Lower(uri[..|SCHEME|]) != SCHEME then Err(WrongScheme)
    else
      var remainder := uri[|SCHEME|..];
      match Position(remainder, {SLASH})
      case None => Err(EmptyPath)
      case Some(authorityEnd) =>
        var trustDomain := remainder[..authorityEnd];
        if trustDomain == [] then Err(MissingTrustDomain)
        else if exists i | 0 <= i < |trustDomain| :: BadAuthorityByte(trustDomain[i]) then Err(BadAuthority)
        else ParsePath(trustDomain, remainder[authorityEnd + 1..])
  }

  function ParsePath(trustDomain: Str, path: Str): Result<SpiffeId> {
    match StripPrefix(path, NS)
    case None => Err(MalformedPath)
    case Some(path) =>
      match Position(path, {SLASH, QUERY, FRAGMENT})
      case None => Err(MalformedPath)
      case Some(namespaceEnd) =>
        if path[namespaceEnd] != SLASH then Err(QueryOrFragment)
        else
          var namespace := path[..namespaceEnd];
          match StripPrefix(path[namespaceEnd + 1..], SA)
          case None => Err(MalformedPath)
          case Some(serviceAccount) =>
            if namespace == [] || serviceAccount == [] || !FreeOf(serviceAccount, {SLASH, QUERY, FRAGMENT})
            then Err(MalformedPath)
            else Ok(SpiffeId(trustDomain, namespace, serviceAccount))
  }

  /** `SpiffeId::try_new`. */
  function TryNew(trustDomain: Str, namespace: Str, serviceAccount: Str): Result<SpiffeId> {
    if trustDomain == [] || namespace == [] || serviceAccount == [] then Err(EmptySegment)
    else Ok(SpiffeId(trustDomain, namespace, serviceAccount))
  }

  /** `SpiffeId::from_uri`. */
  function FromUri(uri: Str): Result<SpiffeId> {
    match ParseUri(uri)
    case Err(e) => Err(e)
    case Ok(p) => TryNew(Lower(p.trustDomain), p.namespace, p.serviceAccount)
  }

  function Leaf(id: SpiffeId): Str {
    SA + id.serviceAccount
  }

  function Path(id: SpiffeId): Str {
    NS + (id.namespace + [SLASH] + Leaf(id))
  }

  /** Everything behind the scheme. */
  function Body(id: SpiffeId): Str {
    id.trustDomain + [SLASH] + Path(id)
  }

  /** The printed form of an identity. */
  function Printed(id: SpiffeId): Str {
    SCHEME + Body(id)
  }

  /** `SpiffeId::to_uri`: the buffer is filled to exactly the capacity it was given. */
  method ToUri(id: SpiffeId) returns (uri: Str)
    ensures uri == Printed(id)
    ensures |uri| == 17 + |id.trustDomain| + |id.namespace| + |id.serviceAccount|
  {
    uri := SCHEME;
    uri := uri + id.trustDomain;
    uri := uri + ([SLASH] + NS);
    uri := uri + id.namespace;
    uri := uri + ([SLASH] + SA);
    uri := uri + id.serviceAccount;
    assert uri == Printed(id);
  }

  /** The segments a URI can carry: non-empty and free of the bytes forbidden in them. */
  predicate WellFormed(id: SpiffeId) {
    && id.trustDomain != [] && id.namespace != [] && id.serviceAccount != []
    && FreeOf(id.trustDomain, {SLASH})
    && (forall i | 0 <= i < |id.trustDomain| :: !BadAuthorityByte(id.trustDomain[i]))
    && FreeOf(id.namespace, {SLASH, QUERY, FRAGMENT})
    && FreeOf(id.serviceAccount, {SLASH, QUERY, FRAGMENT})
  }

  lemma {:induction false} PositionAt(a: Str, c: byte, rest: Str, bytes: set<byte>)
    requires FreeOf(a, bytes) && c in bytes
    ensures Position(a + [c] + rest, bytes) == Some(|a|)
  {
    var s := a + [c] + rest;
    if a != [] {
      assert s[1..] == a[1..] + [c] + rest;
      PositionAt(a[1..], c, rest, bytes);
    }
  }

  lemma SplitAt(s: Str, e: nat)
    requires e < |s|
    ensures s == s[..e] + [s[e]] + s[e + 1..]
  {
  }

  lemma ParseSound(uri: Str)
    requires ParseUri(uri).Ok?
    ensures var p := ParseUri(uri).value;
            WellFormed(p) && |uri| >= |SCHEME| && Lower(uri[..|SCHEME|]) == SCHEME && uri[|SCHEME|..] == Body(p)
  {
    var remainder := uri[|SCHEME|..];
    var e := Position(remainder, {SLASH}).value;
    SplitAt(remainder, e);
    PathSound(remainder[..e], remainder[e + 1..]);
  }

  lemma PathSound(trustDomain: Str, path: Str)
    requires ParsePath(trustDomain, path).Ok?
    ensures var p := ParsePath(trustDomain, path).value;
            && p.trustDomain == trustDomain && p.namespace != [] && p.serviceAccount != []
            && FreeOf(p.namespace, {SLASH, QUERY, FRAGMENT}) && FreeOf(p.serviceAccount, {SLASH, QUERY, FRAGMENT})
            && path == Path(p)
  {
  }

  lemma JoinAt(a: Str, c: byte, rest: Str)
    ensures var s := a + [c] + rest; |s| > |a| && s[..|a|] == a && s[|a|] == c && s[|a| + 1..] == rest
  {
  }

  lemma ParseComplete(uri: Str, p: SpiffeId)
    requires WellFormed(p) && |uri| >= |SCHEME| && Lower(uri[..|SCHEME|]) == SCHEME && uri[|SCHEME|..] == Body(p)
    ensures ParseUri(uri) == Ok(p)
  {
    PositionAt(p.trustDomain, SLASH, Path(p), {SLASH});
    JoinAt(p.trustDomain, SLASH, Path(p));
    PathComplete(p);
  }

  lemma StripJoined(prefix: Str, s: Str)
    ensures StripPrefix(prefix + s, prefix) == Some(s)
  {
  }

  lemma PathComplete(p: SpiffeId)
    requires WellFormed(p)
    ensures ParsePath(p.trustDomain, Path(p)) == Ok(p)
  {
    StripJoined(NS, p.namespace + [SLASH] + Leaf(p));
    PositionAt(p.namespace, SLASH, Leaf(p), {SLASH, QUERY, FRAGMENT});
    JoinAt(p.namespace, SLASH, Leaf(p));
    StripJoined(SA, p.serviceAccount);
  }

  /** The parser accepts exactly the URIs made of a scheme, in any case, and a
      well-formed body, and returns that body's segments. */
  lemma ParseIff(uri: Str, p: SpiffeId)
    ensures ParseUri(uri) == Ok(p) <==>
            WellFormed(p) && |uri| >= |SCHEME| && Lower(uri[..|SCHEME|]) == SCHEME && uri[|SCHEME|..] == Body(p)
  {
    if ParseUri(uri) == Ok(p) {
      ParseSound(uri);
    }
    if WellFormed(p) && |uri| >= |SCHEME| && Lower(uri[..|SCHEME|]) == SCHEME && uri[|SCHEME|..] == Body(p) {
      ParseComplete(uri, p);
    }
  }

  // ------------------------------------------------------------ slash counting

  function Slashes(s: Str): nat {
    if s == [] then 0 else (if s[0] == SLASH then 1 else 0) + Slashes(s[1..])
  }

  lemma {:induction false} SlashesAppend(a: Str, b: Str)
    ensures Slashes(a + b) == Slashes(a) + Slashes(b)
  {
    if a == [] {
      assert a + b == b;
    } else {
      assert (a + b)[1..] == a[1..] + b;
      SlashesAppend(a[1..], b);
    }
  }

  lemma {:induction false} NoSlashes(s: Str)
    ensures Slashes(s) == 0 <==> FreeOf(s, {SLASH})
  {
    if s != [] {
      NoSlashes(s[1..]);
      assert s == [s[0]] + s[1..];
    }
  }

  lemma BodySlashes(id: SpiffeId)
    ensures Slashes(Body(id)) ==
            4 + Slashes(id.trustDomain) + Slashes(id.namespace) + Slashes(id.serviceAccount)
  {
    FixedSlashes();
    SlashesAppend(id.trustDomain + [SLASH], Path(id));
    SlashesAppend(id.trustDomain, [SLASH]);
    SlashesAppend(NS, id.namespace + [SLASH] + Leaf(id));
    SlashesAppend(id.namespace + [SLASH], Leaf(id));
    SlashesAppend(id.namespace, [SLASH]);
    SlashesAppend(SA, id.serviceAccount);
  }

  lemma FixedSlashes()
    ensures Slashes([SLASH]) == 1 && Slashes(NS) == 1 && Slashes(SA) == 1
  {
  }

  /** Two texts split at their first slash split alike. */
  lemma FirstSlashSplits(a: Str, x: Str, b: Str, y: Str)
    requires FreeOf(a, {SLASH}) && FreeOf(b, {SLASH})
    requires a + [SLASH] + x == b + [SLASH] + y
    ensures a == b && x == y
  {
    PositionAt(a, SLASH, x, {SLASH});
    PositionAt(b, SLASH, y, {SLASH});
    var s := a + [SLASH] + x;
    assert s[..|a|] == a && s[..|b|] == b && s[|a| + 1..] == x && s[|b| + 1..] == y;
  }

  /** Counting slashes: an identity whose body spells a well-formed one has none of its own. */
  lemma NoStraySlashes(id: SpiffeId, p: SpiffeId)
    requires WellFormed(p) && Body(id) == Body(p)
    ensures FreeOf(id.trustDomain, {SLASH}) && FreeOf(id.namespace, {SLASH})
  {
    BodySlashes(id);
    BodySlashes(p);
    assert FreeOf(p.namespace, {SLASH}) && FreeOf(p.serviceAccount, {SLASH});
    NoSlashes(p.trustDomain);
    NoSlashes(p.namespace);
    NoSlashes(p.serviceAccount);
    NoSlashes(id.trustDomain);
    NoSlashes(id.namespace);
  }

  lemma CancelPrefix(prefix: Str, a: Str, b: Str)
    requires prefix + a == prefix + b
    ensures a == b
  {
    StripJoined(prefix, a);
    StripJoined(prefix, b);
  }

  /** A body that spells a well-formed identity spells no other one, however odd the
      other identity's segments are. */
  lemma BodyIsInjective(id: SpiffeId, p: SpiffeId)
    requires WellFormed(p) && Body(id) == Body(p)
    ensures id == p
  {
    NoStraySlashes(id, p);
    FirstSlashSplits(id.trustDomain, Path(id), p.trustDomain, Path(p));
    CancelPrefix(NS, id.namespace + [SLASH] + Leaf(id), p.namespace + [SLASH] + Leaf(p));
    assert FreeOf(p.namespace, {SLASH});
    FirstSlashSplits(id.namespace, Leaf(id), p.namespace, Leaf(p));
    CancelPrefix(SA, id.serviceAccount, p.serviceAccount);
  }

  // --------------------------------------------------------------- round trips

  lemma SchemeIsLower()
    ensures Lower(SCHEME) == SCHEME
  {
  }

  lemma LowerKeepsWellFormed(id: SpiffeId)
    requires WellFormed(id)
    ensures WellFormed(id.(trustDomain := Lower(id.trustDomain)))
  {
  }

  /** Print then parse: for every triple of strings, either the parser refuses or only
      the trust domain's case changed; and it accepts exactly the well-formed triples. */
  lemma PrintThenParse(id: SpiffeId)
    ensures FromUri(Printed(id)).Ok? <==> WellFormed(id)
    ensures FromUri(Printed(id)).Ok? ==>
              FromUri(Printed(id)).value == id.(trustDomain := Lower(id.trustDomain))
  {
    var uri := Printed(id);
    SchemeIsLower();
    assert uri[..|SCHEME|] == SCHEME && uri[|SCHEME|..] == Body(id);
    if WellFormed(id) {
      ParseComplete(uri, id);
    }
    if ParseUri(uri).Ok? {
      ParseSound(uri);
      BodyIsInjective(id, ParseUri(uri).value);
    }
  }

  /** Where the authority of a URI ends. */
  function AuthorityEnd(uri: Str): (n: nat)
    ensures n <= |uri|
  {
    if |uri| < |SCHEME| then |uri|
    else
      match Position(uri[|SCHEME|..], {SLASH})
      case None => |uri|
      case Some(e) => |SCHEME| + e
  }

  /** The URI with only its scheme and authority lower-cased. */
  function Normalised(uri: Str): Str {
    Lower(uri[..AuthorityEnd(uri)]) + uri[AuthorityEnd(uri)..]
  }

  lemma LowerAppend(a: Str, b: Str)
    ensures Lower(a + b) == Lower(a) + Lower(b)
  {
  }

  lemma LowerIdempotent(s: Str)
    ensures Lower(Lower(s)) == Lower(s)
  {
  }

  lemma NormalisedParts(uri: Str, authority: Str, path: Str)
    requires |uri| >= |SCHEME| && Lower(uri[..|SCHEME|]) == SCHEME
    requires FreeOf(authority, {SLASH}) && uri[|SCHEME|..] == authority + [SLASH] + path
    ensures Normalised(uri) == SCHEME + (Lower(authority) + [SLASH] + path)
  {
    PositionAt(authority, SLASH, path, {SLASH});
    var e := |SCHEME| + |authority|;
    assert AuthorityEnd(uri) == e;
    assert uri == uri[..|SCHEME|] + (authority + [SLASH] + path);
    assert uri[..e] == uri[..|SCHEME|] + authority && uri[e..] == [SLASH] + path;
    LowerAppend(uri[..|SCHEME|], authority);
  }

  /** Parse then print is a normal form: it lower-cases scheme and authority and leaves
      every other byte alone. */
  lemma ParseThenPrint(uri: Str)
    requires FromUri(uri).Ok?
    ensures Printed(FromUri(uri).value) == Normalised(uri)
  {
    ParseSound(uri);
    var p := ParseUri(uri).value;
    NormalisedParts(uri, p.trustDomain, Path(p));
  }

  /** What the parser returns parses back to itself. */
  lemma ParseIsIdempotent(uri: Str)
    requires FromUri(uri).Ok?
    ensures WellFormed(FromUri(uri).value) && Lower(FromUri(uri).value.trustDomain) == FromUri(uri).value.trustDomain
    ensures FromUri(Printed(FromUri(uri).value)) == FromUri(uri)
    ensures FromUri(Normalised(uri)) == FromUri(uri)
  {
    ParseSound(uri);
    var p, id := ParseUri(uri).value, FromUri(uri).value;
    LowerKeepsWellFormed(p);
    LowerIdempotent(p.trustDomain);
    PrintThenParse(id);
    ParseThenPrint(uri);
  }

  /** Two accepted URIs name the same identity exactly when they agree up to the case
      of scheme and authority. */
  lemma SameIdentityIff(u: Str, v: Str)
    requires FromUri(u).Ok? && FromUri(v).Ok?
    ensures FromUri(u) == FromUri(v) <==> Normalised(u) == Normalised(v)
  {
    ParseThenPrint(u);
    ParseThenPrint(v);
    ParseIsIdempotent(u);
    ParseIsIdempotent(v);
  }

  // ------------------------------------------------------------------ patterns

  datatype CompiledPattern =
    CompiledPattern(trustDomain: Str, namespace: SegmentGlob, serviceAccount: SegmentGlob)

  ghost predicate ValidPattern(p: CompiledPattern) {
    Valid(p.namespace) && Valid(p.serviceAccount)
  }

  /** The text a pattern was compiled from, split like an identity. */
  function Text(p: CompiledPattern): SpiffeId {
    SpiffeId(p.trustDomain, p.namespace.pattern, p.serviceAccount.pattern)
  }

  /** The identities a pattern text stands for: an empty trust domain is any trust domain,
      a non-empty one is compared literally, and the path segments are globs. */
  ghost predicate Denotes(text: SpiffeId, id: SpiffeId) {
    && (text.trustDomain == [] || id.trustDomain == text.trustDomain)
    && InGlob(text.namespace, id.namespace)
    && InGlob(text.serviceAccount, id.serviceAccount)
  }

  /** `CompiledPattern::from_uri`: patterns parse exactly like identities. */
  method PatternFromUri(uri: Str) returns (r: Result<CompiledPattern>)
    ensures r.Ok? <==> FromUri(uri).Ok?
    ensures r.Ok? ==> ValidPattern(r.value) && Text(r.value) == FromUri(uri).value
  {
    var parsed := ParseUri(uri);
    if parsed.Err? {
      return Err(parsed.error);
    }
    assert FromUri(uri).Ok? by {
      ParseSound(uri);
    }
    var namespace := New(parsed.value.namespace);
    var serviceAccount := New(parsed.value.serviceAccount);
    r := Ok(CompiledPattern(Lower(parsed.value.trustDomain), namespace, serviceAccount));
  }

  /** `CompiledPattern::any`. */
  method PatternAny() returns (p: CompiledPattern)
    ensures ValidPattern(p) && forall id :: Denotes(Text(p), id)
  {
    var star := New([STAR]);
    p := CompiledPattern([], star, star);
    forall id
      ensures Denotes(Text(p), id)
    {
      StarMatchesAll(id.namespace);
      StarMatchesAll(id.serviceAccount);
    }
  }

  lemma StarMatchesAll(value: Str)
    ensures InGlob([STAR], value)
  {
    assert [STAR][1..] == [] && value[|value|..] == [];
    assert InGlob([STAR][1..], value[|value|..]);
  }

  /** `SpiffeId::matches_compiled`. */
  method MatchesCompiled(id: SpiffeId, p: CompiledPattern) returns (r: bool)
    requires ValidPattern(p)
    ensures r <==> Denotes(Text(p), id)
  {
    if p.trustDomain != [] && id.trustDomain != p.trustDomain {
      return false;
    }
    r := Matches(p.namespace, id.namespace);
    if r {
      r := Matches(p.serviceAccount, id.serviceAccount);
    }
  }

  /** `SpiffeId::matches_pattern`: a pattern that does not parse matches nothing. */
  method MatchesPattern(id: SpiffeId, pattern: Str) returns (r: bool)
    ensures r <==> FromUri(pattern).Ok? && Denotes(FromUri(pattern).value, id)
  {
    var cp := PatternFromUri(pattern);
    if cp.Err? {
      return false;
    }
    r := MatchesCompiled(id, cp.value);
  }

  /** An identity matches its own URI used as a pattern exactly when it is well-formed and
      its trust domain is in lower case. */
  lemma SelfMatchIff(id: SpiffeId)
    ensures var p := FromUri(Printed(id));
            p.Ok? && Denotes(p.value, id) <==> WellFormed(id) && Lower(id.trustDomain) == id.trustDomain
  {
    PrintThenParse(id);
    GlobIsReflexive(id.namespace);
    GlobIsReflexive(id.serviceAccount);
  }

  /** So every identity that went through the parser matches itself. */
  lemma ParsedMatchesItself(uri: Str)
    requires FromUri(uri).Ok?
    ensures var id := FromUri(uri).value;
            FromUri(Printed(id)).Ok? && Denotes(FromUri(Printed(id)).value, id)
  {
    ParseIsIdempotent(uri);
    SelfMatchIff(FromUri(uri).value);
  }

  /** A pattern text that an identity matches has that identity as its only match exactly when
      the trust domain is fixed and neither path segment contains a star. */
  lemma OnlyMatchIff(text: SpiffeId)
    ensures (forall other :: Denotes(text, other) <==> other == text) <==>
            text.trustDomain != [] && StarFree(text.namespace) && StarFree(text.serviceAccount)
  {
    GlobIsReflexive(text.namespace);
    GlobIsReflexive(text.serviceAccount);
    GlobIsExactIff(text.namespace);
    GlobIsExactIff(text.serviceAccount);
    if text.trustDomain == [] {
      assert Denotes(text, text.(trustDomain := [STAR]));
    } else if !StarFree(text.namespace) {
      var v :| !(InGlob(text.namespace, v) <==> v == text.namespace);
      assert Denotes(text, text.(namespace := v));
    } else if !StarFree(text.serviceAccount) {
      var v :| !(InGlob(text.serviceAccount, v) <==> v == text.serviceAccount);
      assert Denotes(text, text.(serviceAccount := v));
    } else {
      forall other
        ensures Denotes(text, other) <==> other == text
      {
        assert InGlob(text.namespace, other.namespace) <==> other.namespace == text.namespace;
        assert InGlob(text.serviceAccount, other.serviceAccount) <==> other.serviceAccount == text.serviceAccount;
      }
    }
  }

  /** `try_new` lets an upper-case trust domain through, and such an identity does not match itself. */
  lemma UpperCaseMissesItself()
    ensures var id := SpiffeId([65], [97], [97]);
            && TryNew(id.trustDomain, id.namespace, id.serviceAccount) == Ok(id)
            && FromUri(Printed(id)).Ok? && !Denotes(FromUri(Printed(id)).value, id)
  {
    var id := SpiffeId([65], [97], [97]);
    assert Lower(id.trustDomain)[0] == 97;
    SelfMatchIff(id);
    PrintThenParse(id);
  }

  /** A star for a trust domain is accepted, and then stands for itself. */
  lemma StarTrustDomainIsLiteral()
    ensures var id := SpiffeId([STAR], [97], [97]);
            && FromUri(Printed(id)) == Ok(id)
            && Denotes(id, id) && forall other | Denotes(id, other) :: other.trustDomain == [STAR]
  {
    var id := SpiffeId([STAR], [97], [97]);
    assert Lower(id.trustDomain) == id.trustDomain;
    PrintThenParse(id);
    SelfMatchIff(id);
  }

  // ------------------------------------------------------------ the text itself

  /** The bytes of an ASCII text. */
  function Bytes(text: string): (r: Str)
    requires forall i | 0 <= i < |text| :: text[i] < 128 as char
    ensures |r| == |text| && forall i | 0 <= i < |text| :: r[i] as int == text[i] as int
  {
    seq(|text|, i requires 0 <= i < |text| => text[i] as int as byte)
  }

  /** The printed form, spelled out. */
  lemma PrintedText(id: SpiffeId)
    ensures Printed(id) ==
            Bytes("spiffe://") + id.trustDomain + Bytes("/ns/") + id.namespace + Bytes("/sa/") + id.serviceAccount
    ensures Bytes("*") == [STAR]
  {
    assert Bytes("spiffe://") == SCHEME;
    assert Bytes("/ns/") == [SLASH] + NS;
    assert Bytes("/sa/") == [SLASH] + SA;
    assert Bytes("*") == [STAR];
  }

  /** Byte by byte: no segment is empty; a trust domain holds no control, no white space and none of `/`, `@`,
      `:`, `[`, `]`, `\`, `?`, `#`; the other two hold none of `/`, `?`, `#`. */
  lemma WellFormedIff(id: SpiffeId)
    ensures WellFormed(id) <==>
            && id.trustDomain != [] && id.namespace != [] && id.serviceAccount != []
            && (forall b | b in id.trustDomain :: b > 32 && b != 127 && b !in {47, 64, 58, 91, 93, 92, 63, 35})
            && (forall b | b in id.namespace :: b !in {47, 63, 35})
            && (forall b | b in id.serviceAccount :: b !in {47, 63, 35})
  {
    FreeOfIff(id.trustDomain, {SLASH});
    FreeOfIff(id.namespace, {SLASH, QUERY, FRAGMENT});
    FreeOfIff(id.serviceAccount, {SLASH, QUERY, FRAGMENT});
    assert forall i | 0 <= i < |id.trustDomain| :: id.trustDomain[i] in id.trustDomain;
  }

  lemma FreeOfIff(s: Str, bytes: set<byte>)
    ensures FreeOf(s, bytes) <==> forall b | b in s :: b !in bytes
  {
    assert forall i | 0 <= i < |s| :: s[i] in s;
  }
}
