// The type of the configuration, and what its variable names decode to.
module ConfigTree {
  import opened Wrappers
  import opened Splitting
  import opened EnvNames

  function Snake(words: seq<string>): string {
    Join(words, SEP)
  }

  function Fields(words: seq<seq<string>>, types: seq<Type>): (fields: seq<Field>)
    requires |words| == |types|
    ensures |fields| == |words|
  {
    seq(|words|, i requires 0 <= i < |words| => Field(Snake(words[i]), types[i]))
  }

  const STR := Leaf("string")
  const BOOL := Leaf("bool")
  const INT := Leaf("int")
  const DURATION := Leaf("time.DURATION")
  const STRS := Leaf("[]string")

  const APP := [["name"], ["env"], ["log", "level"]]
  const HTTP := [["address"], ["read", "timeout"], ["read", "header", "timeout"], ["write", "timeout"],
                 ["idle", "timeout"], ["shutdown", "timeout"], ["trusted", "proxies"]]
  const DATABASE := [["url"], ["max", "open", "conns"], ["max", "idle", "conns"], ["conn", "max", "lifetime"],
                     ["conn", "max", "idle", "time"]]
  const SESSION := [["cookie", "name"], ["lifetime"], ["idle", "timeout"], ["same", "site"], ["secure"],
                    ["http", "only"], ["persist"]]
  const SECURITY := [["allowed", "origins"], ["encryption", "key"], ["authorization", "cache", "ttl"],
                     ["password", "reset", "ttl"], ["email", "verification", "ttl"], ["recovery", "ttl"],
                     ["failed", "login", "threshold"], ["failed", "login", "window"],
                     ["inactivity", "disable", "after"], ["totp", "issuer"]]
  const OAUTH := [["state", "ttl"], ["state", "bytes"], ["pkce", "verifier", "bytes"], ["providers"]]
  const PROVIDER := [["enabled"], ["client", "id"], ["client", "secret"], ["auth", "url"], ["token", "url"],
                     ["user", "info", "url"], ["redirect", "url"], ["scopes"], ["subject", "field"],
                     ["email", "field"], ["email", "verified", "field"], ["username", "field"], ["name", "field"]]
  const WEBAUTHN := [["rp", "id"], ["rp", "display", "name"], ["rp", "origins"]]
  const MAILER := [["enabled"], ["from"], ["host"], ["port"], ["username"], ["password"], ["require", "tls"]]
  const RIVER := [["enabled"], ["email", "outbox", "every"], ["email", "outbox", "retention"], ["cleanup", "every"],
                  ["inactivity", "check", "every"], ["max", "workers"]]
  const ROOT := [["app"], ["http"], ["database"], ["session"], ["security"], ["oauth"], ["webauthn"],
                 ["mailer"], ["river"]]

  const APP_TYPE := Struct(Fields(APP, [STR, STR, STR]))
  const HTTP_TYPE := Struct(Fields(HTTP, [STR, DURATION, DURATION, DURATION, DURATION, DURATION, STRS]))
  const DATABASE_TYPE := Struct(Fields(DATABASE, [STR, INT, INT, DURATION, DURATION]))
  const SESSION_TYPE := Struct(Fields(SESSION, [STR, DURATION, DURATION, STR, BOOL, BOOL, BOOL]))
  const SECURITY_TYPE := Struct(Fields(SECURITY,
    [STRS, STR, DURATION, DURATION, DURATION, DURATION, INT, DURATION, DURATION, STR]))
  const PROVIDER_TYPE := Struct(Fields(PROVIDER,
    [BOOL, STR, STR, STR, STR, STR, STR, STRS, STR, STR, STR, STR, STR]))
  const OAUTH_TYPE := Struct(Fields(OAUTH, [DURATION, INT, INT, MapOf(PROVIDER_TYPE)]))
  const WEBAUTHN_TYPE := Struct(Fields(WEBAUTHN, [STR, STR, STRS]))
  const MAILER_TYPE := Struct(Fields(MAILER, [BOOL, STR, STR, INT, STR, STR, BOOL]))
  const RIVER_TYPE := Struct(Fields(RIVER, [BOOL, DURATION, DURATION, DURATION, DURATION, INT]))

  const ROOT_TYPES := [APP_TYPE, HTTP_TYPE, DATABASE_TYPE, SESSION_TYPE, SECURITY_TYPE, OAUTH_TYPE, WEBAUTHN_TYPE,
                       MAILER_TYPE, RIVER_TYPE]

  const CONFIG_TYPE := Struct(Fields(ROOT, ROOT_TYPES))

  // ---- Tags, word by word ----

  predicate Letters(w: string) {
    w != "" && forall i :: 0 <= i < |w| ==> 'a' <= w[i] <= 'z'
  }

  predicate Clean(words: seq<string>) {
    words != [] && forall w :: w in words ==> Letters(w)
  }

  // The words of a tag built from clean words are those words, and the tag is a tag.
  lemma SnakeWords(words: seq<string>)
    requires Clean(words)
    ensures Field(Snake(words), Leaf("")).Words() == words && Snake(words) != "" && Snake(words) != "-"
  {
    SplitJoin(words, SEP);
    assert words[0] in words;
    if |words| > 1 {
      assert |Snake(words)| > 1;
    }
  }

  lemma {:induction false} SnakeIsLower(words: seq<string>)
    requires Clean(words)
    ensures LowerCase(Snake(words))
  {
    assert words[0] in words;
    if |words| > 1 {
      assert forall w :: w in words[1..] ==> w in words;
      SnakeIsLower(words[1..]);
      LowerJoin(words[0], Snake(words[1..]));
    }
  }

  lemma FieldWords(words: seq<seq<string>>, types: seq<Type>, i: nat)
    requires |words| == |types| && i < |words| && Clean(words[i])
    ensures Fields(words, types)[i].Words() == words[i] && Fields(words, types)[i].Tagged()
  {
    SnakeWords(words[i]);
  }

  // Two word lists differ at one of their first three places, or at one of their last three.
  predicate HeadsDiffer(a: seq<string>, b: seq<string>) {
    || (|a| > 0 && |b| > 0 && a[0] != b[0])
    || (|a| > 1 && |b| > 1 && a[1] != b[1])
    || (|a| > 2 && |b| > 2 && a[2] != b[2])
  }

  function FromEnd(a: seq<string>, m: int): string
    requires 1 <= m <= |a|
  {
    a[|a| - m]
  }

  predicate EndsDiffer(a: seq<string>, b: seq<string>) {
    || (|a| > 0 && |b| > 0 && FromEnd(a, 1) != FromEnd(b, 1))
    || (|a| > 1 && |b| > 1 && FromEnd(a, 2) != FromEnd(b, 2))
    || (|a| > 2 && |b| > 2 && FromEnd(a, 3) != FromEnd(b, 3))
  }

  predicate AllClean(words: seq<seq<string>>) {
    forall i :: 0 <= i < |words| ==> Clean(words[i])
  }

  predicate Distinguishable(words: seq<seq<string>>) {
    forall i, k :: 0 <= i < |words| && 0 <= k < |words| && i != k ==> HeadsDiffer(words[i], words[k])
  }

  lemma DistinguishableTags(words: seq<seq<string>>, types: seq<Type>)
    requires |words| == |types| && AllClean(words) && Distinguishable(words)
    requires forall t :: t in types ==> WellTagged(t) && LowerTagged(t)
    ensures WellTagged(Struct(Fields(words, types))) && LowerTagged(Struct(Fields(words, types)))
  {
    var fields := Fields(words, types);
    forall i, k | 0 <= i < |fields| && 0 <= k < |fields| && i != k
      ensures !(fields[i].Words() <= fields[k].Words())
    {
      FieldWords(words, types, i);
      FieldWords(words, types, k);
      assert HeadsDiffer(words[i], words[k]);
    }
    forall f | f in fields ensures WellTagged(f.typ) && LowerTagged(f.typ) && LowerCase(f.tag) {
      var i :| 0 <= i < |fields| && fields[i] == f;
      assert types[i] in types;
      SnakeIsLower(words[i]);
    }
  }

  lemma ProviderTagsEndDifferently()
    ensures forall i, k :: 0 <= i < |PROVIDER| && 0 <= k < |PROVIDER| && i != k ==> EndsDiffer(PROVIDER[i], PROVIDER[k])
  {
  }

  // The words of a long list are checked in parts.
  lemma CleanParts(words: seq<seq<string>>, n: nat)
    requires n <= |words| && AllClean(words[..n]) && AllClean(words[n..])
    ensures AllClean(words)
  {
    forall i | 0 <= i < |words| ensures Clean(words[i]) {
      assert words[i] == if i < n then words[..n][i] else words[n..][i - n];
    }
  }

  lemma SecurityWordsFirst()
    ensures AllClean(SECURITY[..5][..3])
  {
  }

  lemma SecurityWordsSecond()
    ensures AllClean(SECURITY[..5][3..])
  {
  }

  lemma SecurityWordsThird()
    ensures AllClean(SECURITY[5..][..3])
  {
  }

  lemma SecurityWordsFourth()
    ensures AllClean(SECURITY[5..][3..])
  {
  }

  lemma SecurityWords()
    ensures AllClean(SECURITY)
  {
    hide AllClean;
    SecurityWordsFirst();
    SecurityWordsSecond();
    SecurityWordsThird();
    SecurityWordsFourth();
    CleanParts(SECURITY[..5], 3);
    CleanParts(SECURITY[5..], 3);
    CleanParts(SECURITY, 5);
  }

  lemma SecurityTags()
    ensures Distinguishable(SECURITY)
  {
    assert forall i, k :: 0 <= i < |SECURITY| && 0 <= k < |SECURITY| && i != k ==>
        HeadsDiffer(SECURITY[i], SECURITY[k]);
  }

  lemma AppWords()
    ensures AllClean(APP)
  {
  }

  lemma AppTags()
    ensures Distinguishable(APP)
  {
    assert forall i, k :: 0 <= i < |APP| && 0 <= k < |APP| && i != k ==> HeadsDiffer(APP[i], APP[k]);
  }

  lemma HttpWordsFirst()
    ensures AllClean(HTTP[..4])
  {
  }

  lemma HttpWordsSecond()
    ensures AllClean(HTTP[4..])
  {
  }

  lemma HttpWords()
    ensures AllClean(HTTP)
  {
    HttpWordsFirst();
    HttpWordsSecond();
    CleanParts(HTTP, 4);
  }

  lemma HttpTags()
    ensures Distinguishable(HTTP)
  {
    assert forall i, k :: 0 <= i < |HTTP| && 0 <= k < |HTTP| && i != k ==> HeadsDiffer(HTTP[i], HTTP[k]);
  }

  lemma DatabaseWords()
    ensures AllClean(DATABASE)
  {
  }

  lemma DatabaseTags()
    ensures Distinguishable(DATABASE)
  {
    assert forall i, k :: 0 <= i < |DATABASE| && 0 <= k < |DATABASE| && i != k ==>
        HeadsDiffer(DATABASE[i], DATABASE[k]);
  }

  lemma SessionWords()
    ensures AllClean(SESSION)
  {
  }

  lemma SessionTags()
    ensures Distinguishable(SESSION)
  {
    assert forall i, k :: 0 <= i < |SESSION| && 0 <= k < |SESSION| && i != k ==> HeadsDiffer(SESSION[i], SESSION[k]);
  }

  lemma ProviderWordsFirst()
    ensures AllClean(PROVIDER[..5])
  {
  }

  lemma ProviderWordsSecond()
    ensures AllClean(PROVIDER[5..][..4])
  {
  }

  lemma ProviderWordsThird()
    ensures AllClean(PROVIDER[5..][4..])
  {
  }

  lemma ProviderWords()
    ensures AllClean(PROVIDER)
  {
    ProviderWordsFirst();
    ProviderWordsSecond();
    ProviderWordsThird();
    CleanParts(PROVIDER[5..], 4);
    CleanParts(PROVIDER, 5);
  }

  lemma ProviderTags()
    ensures Distinguishable(PROVIDER)
  {
    assert forall i, k :: 0 <= i < |PROVIDER| && 0 <= k < |PROVIDER| && i != k ==>
        HeadsDiffer(PROVIDER[i], PROVIDER[k]);
  }

  lemma OAuthWords()
    ensures AllClean(OAUTH)
  {
  }

  lemma OAuthTags()
    ensures Distinguishable(OAUTH)
  {
    assert forall i, k :: 0 <= i < |OAUTH| && 0 <= k < |OAUTH| && i != k ==> HeadsDiffer(OAUTH[i], OAUTH[k]);
  }

  lemma WebAuthnWords()
    ensures AllClean(WEBAUTHN)
  {
  }

  lemma WebAuthnTags()
    ensures Distinguishable(WEBAUTHN)
  {
    assert forall i, k :: 0 <= i < |WEBAUTHN| && 0 <= k < |WEBAUTHN| && i != k ==>
        HeadsDiffer(WEBAUTHN[i], WEBAUTHN[k]);
  }

  lemma MailerWords()
    ensures AllClean(MAILER)
  {
  }

  lemma MailerTags()
    ensures Distinguishable(MAILER)
  {
    assert forall i, k :: 0 <= i < |MAILER| && 0 <= k < |MAILER| && i != k ==> HeadsDiffer(MAILER[i], MAILER[k]);
  }

  lemma RiverWordsFirst()
    ensures AllClean(RIVER[..3])
  {
  }

  lemma RiverWordsSecond()
    ensures AllClean(RIVER[3..])
  {
  }

  lemma RiverWords()
    ensures AllClean(RIVER)
  {
    RiverWordsFirst();
    RiverWordsSecond();
    CleanParts(RIVER, 3);
  }

  lemma RiverTags()
    ensures Distinguishable(RIVER)
  {
    assert forall i, k :: 0 <= i < |RIVER| && 0 <= k < |RIVER| && i != k ==> HeadsDiffer(RIVER[i], RIVER[k]);
  }

  lemma RootWords()
    ensures AllClean(ROOT)
  {
  }

  lemma RootTags()
    ensures Distinguishable(ROOT)
  {
    assert forall i, k :: 0 <= i < |ROOT| && 0 <= k < |ROOT| && i != k ==> HeadsDiffer(ROOT[i], ROOT[k]);
  }

  lemma OAuthWellTagged()
    ensures WellTagged(OAUTH_TYPE) && LowerTagged(OAUTH_TYPE)
  {
    hide Fields, AllClean, Distinguishable;
    ProviderWords();
    ProviderTags();
    DistinguishableTags(PROVIDER, [BOOL, STR, STR, STR, STR, STR, STR, STRS, STR, STR, STR, STR, STR]);
    OAuthWords();
    OAuthTags();
    assert WellTagged(MapOf(PROVIDER_TYPE)) && LowerTagged(MapOf(PROVIDER_TYPE));
    DistinguishableTags(OAUTH, [DURATION, INT, INT, MapOf(PROVIDER_TYPE)]);
  }

  // No tag of the configuration begins a sibling tag, and none has a capital letter.
  lemma ConfigWellTagged()
    ensures WellTagged(CONFIG_TYPE) && LowerTagged(CONFIG_TYPE)
  {
    hide Fields, AllClean, Distinguishable;
    AppWords();
    AppTags();
    DistinguishableTags(APP, [STR, STR, STR]);
    HttpWords();
    HttpTags();
    DistinguishableTags(HTTP, [STR, DURATION, DURATION, DURATION, DURATION, DURATION, STRS]);
    DatabaseWords();
    DatabaseTags();
    DistinguishableTags(DATABASE, [STR, INT, INT, DURATION, DURATION]);
    SessionWords();
    SessionTags();
    DistinguishableTags(SESSION, [STR, DURATION, DURATION, STR, BOOL, BOOL, BOOL]);
    SecurityWords();
    SecurityTags();
    DistinguishableTags(SECURITY,
      [STRS, STR, DURATION, DURATION, DURATION, DURATION, INT, DURATION, DURATION, STR]);
    OAuthWellTagged();
    WebAuthnWords();
    WebAuthnTags();
    DistinguishableTags(WEBAUTHN, [STR, STR, STRS]);
    MailerWords();
    MailerTags();
    DistinguishableTags(MAILER, [BOOL, STR, STR, INT, STR, STR, BOOL]);
    RiverWords();
    RiverTags();
    DistinguishableTags(RIVER, [BOOL, DURATION, DURATION, DURATION, DURATION, INT]);
    RootWords();
    RootTags();
    DistinguishableTags(ROOT, ROOT_TYPES);
  }

  // ---- What the names decode to ----

  // Every path of fields round trips: its name decodes to it, and nothing else spells the name.
  lemma {:induction false} FieldPathsRoundTrip(route: Route)
    requires Leads(CONFIG_TYPE, route) && MapFree(route)
    ensures var tokens := Split(Join(Path(CONFIG_TYPE, route), SEP), SEP);
            IsFirst(CONFIG_TYPE, tokens, route) && forall other :: Spells(CONFIG_TYPE, other, tokens) ==> other == route
  {
    ConfigWellTagged();
    MapFreePathsRoundTrip(CONFIG_TYPE, route);
  }

  lemma SameEnds(v: seq<string>, a: seq<string>)
    ensures forall m :: 1 <= m <= |a| ==> FromEnd(a, m) == FromEnd(v + a, m)
  {
  }

  // No tag of a provider is the end of another: the words of a name that follow the key are determined.
  lemma ProviderTagsAreSuffixFree(v: seq<string>, w: seq<string>, i: nat, k: nat)
    requires i < |PROVIDER| && k < |PROVIDER| && v + PROVIDER[i] == w + PROVIDER[k]
    ensures i == k && v == w
  {
    var a, b := PROVIDER[i], PROVIDER[k];
    if i != k {
      ProviderTagsEndDifferently();
      SameEnds(v, a);
      SameEnds(w, b);
    } else {
      assert (v + a)[..|v|] == v && (w + b)[..|w|] == w;
    }
  }

  const OAUTH_FIELD: nat := 5
  const PROVIDERS_FIELD: nat := 3

  function ProviderRoute(key: seq<string>, f: nat): Route {
    [Tag(OAUTH_FIELD), Tag(PROVIDERS_FIELD), Key(key), Tag(f)]
  }

  // A field of a struct, as the start of a route.
  lemma FieldChoice(words: seq<seq<string>>, types: seq<Type>, i: nat)
    requires |words| == |types| && AllClean(words) && i < |words|
    ensures var t := Struct(Fields(words, types));
            && ChoiceOk(t, Tag(i)) && ChoiceWords(t, Tag(i)) == words[i] && ChoiceName(t, Tag(i)) == Snake(words[i])
            && ChoiceType(t, Tag(i)) == Indirect(types[i])
  {
    FieldWords(words, types, i);
  }

  lemma ProviderField(f: nat)
    requires f < |PROVIDER|
    ensures ChoiceOk(PROVIDER_TYPE, Tag(f)) && ChoiceWords(PROVIDER_TYPE, Tag(f)) == PROVIDER[f]
    ensures ChoiceName(PROVIDER_TYPE, Tag(f)) == Snake(PROVIDER[f])
    ensures ChoiceType(PROVIDER_TYPE, Tag(f)).Leaf? && ChoiceType(PROVIDER_TYPE, Tag(f)) == PROVIDER_TYPE.fields[f].typ
  {
    ProviderWords();
    FieldChoice(PROVIDER, [BOOL, STR, STR, STR, STR, STR, STR, STRS, STR, STR, STR, STR, STR], f);
  }

  lemma ProvidersField()
    ensures ChoiceOk(OAUTH_TYPE, Tag(PROVIDERS_FIELD)) && ChoiceWords(OAUTH_TYPE, Tag(PROVIDERS_FIELD)) == ["providers"]
    ensures ChoiceName(OAUTH_TYPE, Tag(PROVIDERS_FIELD)) == "providers"
    ensures ChoiceType(OAUTH_TYPE, Tag(PROVIDERS_FIELD)) == MapOf(PROVIDER_TYPE)
  {
    OAuthWords();
    FieldChoice(OAUTH, [DURATION, INT, INT, MapOf(PROVIDER_TYPE)], PROVIDERS_FIELD);
  }

  lemma OAuthField()
    ensures ChoiceOk(CONFIG_TYPE, Tag(OAUTH_FIELD)) && ChoiceWords(CONFIG_TYPE, Tag(OAUTH_FIELD)) == ["oauth"]
    ensures ChoiceName(CONFIG_TYPE, Tag(OAUTH_FIELD)) == "oauth"
    ensures ChoiceType(CONFIG_TYPE, Tag(OAUTH_FIELD)) == OAUTH_TYPE
  {
    RootWords();
    FieldChoice(ROOT, ROOT_TYPES, OAUTH_FIELD);
  }

  // In the table of providers, the first route for a key and a field is that key and that field.
  lemma ProviderEntryIsFirst(key: seq<string>, f: nat)
    requires key != [] && f < |PROVIDER|
    ensures IsFirst(MapOf(PROVIDER_TYPE), key + PROVIDER[f], [Key(key), Tag(f)])
    ensures Path(MapOf(PROVIDER_TYPE), [Key(key), Tag(f)]) == [Join(key, SEP), Snake(PROVIDER[f])]
    ensures End(MapOf(PROVIDER_TYPE), [Key(key), Tag(f)]) == PROVIDER_TYPE.fields[f].typ
  {
    var t, tokens := MapOf(PROVIDER_TYPE), key + PROVIDER[f];
    ProviderField(f);
    assert tokens[..|key|] == key && tokens[|key|..] == PROVIDER[f];
    Cons(PROVIDER_TYPE, Tag(f), [], PROVIDER[f]);
    assert [Tag(f)] + [] == [Tag(f)] && [Key(key)] + [Tag(f)] == [Key(key), Tag(f)];
    Cons(t, Key(key), [Tag(f)], tokens);
    forall other | Spells(t, other, tokens) ensures other == [Key(key), Tag(f)] || Earlier([Key(key), Tag(f)], other) {
      OtherProviderEntry(key, f, other);
    }
  }

  lemma OtherProviderEntry(key: seq<string>, f: nat, other: Route)
    requires key != [] && f < |PROVIDER| && Spells(MapOf(PROVIDER_TYPE), other, key + PROVIDER[f])
    ensures other == [Key(key), Tag(f)] || Less(Key(key), other[0])
  {
    var t, tokens := MapOf(PROVIDER_TYPE), key + PROVIDER[f];
    Uncons(t, other, tokens);
    var k := other[0].words;
    if |other| > 1 {
      var rest := tokens[|k|..];
      Uncons(PROVIDER_TYPE, other[1..], rest);
      var g := other[1].index;
      ProviderField(g);
      assert k + PROVIDER[g] == tokens;
      ProviderTagsAreSuffixFree(key, k, f, g);
      assert other == [other[0], other[1]];
    } else {
      ProviderField(f);
    }
  }

  // The name of every field of every provider decodes to that provider and that field, whatever words
  // the provider key is made of.
  lemma ProviderNamesDecode(key: seq<string>, f: nat)
    requires key != [] && f < |PROVIDER|
    ensures var r := ProviderRoute(key, f);
            && IsFirst(CONFIG_TYPE, ["oauth", "providers"] + key + PROVIDER[f], r)
            && Path(CONFIG_TYPE, r) == ["oauth", "providers", Join(key, SEP), Snake(PROVIDER[f])]
            && End(CONFIG_TYPE, r) == PROVIDER_TYPE.fields[f].typ
  {
    hide Leads, Spelling, Spells, IsFirst, Path, End, Earlier, ChoiceOk, ChoiceWords, ChoiceName, ChoiceType,
         WellTagged, Fields, Snake, Join;
    var tokens, inner := ["oauth", "providers"] + key + PROVIDER[f], [Tag(PROVIDERS_FIELD), Key(key), Tag(f)];
    ProviderNamesDecodeBelow(key, f);
    OAuthField();
    ConfigWellTagged();
    assert tokens[..1] == ["oauth"] && tokens[1..] == ["providers"] + key + PROVIDER[f];
    OnlyFieldIsFirst(CONFIG_TYPE, tokens, Tag(OAUTH_FIELD), inner);
    assert ProviderRoute(key, f) == [Tag(OAUTH_FIELD)] + inner;
  }

  lemma ProviderNamesDecodeBelow(key: seq<string>, f: nat)
    requires key != [] && f < |PROVIDER|
    ensures var r := [Tag(PROVIDERS_FIELD), Key(key), Tag(f)];
            && IsFirst(OAUTH_TYPE, ["providers"] + key + PROVIDER[f], r)
            && Path(OAUTH_TYPE, r) == ["providers", Join(key, SEP), Snake(PROVIDER[f])]
            && End(OAUTH_TYPE, r) == PROVIDER_TYPE.fields[f].typ
  {
    hide Leads, Spelling, Spells, IsFirst, Path, End, Earlier, ChoiceOk, ChoiceWords, ChoiceName, ChoiceType,
         WellTagged, Fields, Snake, Join;
    var tokens, entry := ["providers"] + key + PROVIDER[f], [Key(key), Tag(f)];
    ProviderEntryIsFirst(key, f);
    ProvidersField();
    OAuthWellTagged();
    assert tokens[..1] == ["providers"] && tokens[1..] == key + PROVIDER[f];
    OnlyFieldIsFirst(OAUTH_TYPE, tokens, Tag(PROVIDERS_FIELD), entry);
    assert [Tag(PROVIDERS_FIELD)] + entry == [Tag(PROVIDERS_FIELD), Key(key), Tag(f)];
  }

  // In a struct whose tags do not begin each other, the first route is the one through the one field
  // whose tag begins the tokens.
  lemma OnlyFieldIsFirst(t: Type, tokens: seq<string>, c: Choice, rest: Route)
    requires WellTagged(t) && t.Struct? && c.Tag? && ChoiceOk(t, c)
    requires var w := ChoiceWords(t, c);
             w <= tokens && |w| < |tokens| && IsFirst(ChoiceType(t, c), tokens[|w|..], rest)
    ensures IsFirst(t, tokens, [c] + rest)
    ensures Path(t, [c] + rest) == [ChoiceName(t, c)] + Path(ChoiceType(t, c), rest)
    ensures End(t, [c] + rest) == End(ChoiceType(t, c), rest)
  {
    Cons(t, c, rest, tokens);
    forall d | Less(d, c) ensures Dead(t, tokens, d) {
      forall route: Route | route != [] && route[0] == d ensures !Spells(t, route, tokens) {
        if Spells(t, route, tokens) {
          Uncons(t, route, tokens);
          PrefixesCompare(ChoiceWords(t, c), ChoiceWords(t, d), tokens);
        }
      }
    }
    FirstChoice(t, tokens, c, rest);
  }

  lemma PrefixesCompare(v: seq<string>, w: seq<string>, tokens: seq<string>)
    requires v <= tokens && w <= tokens
    ensures v <= w || w <= v
  {
  }

  // ---- The decoder on the configuration ----

  // The name of provider `key`'s field f.
  function ProviderName(key: string, f: nat): string
    requires f < |PROVIDER|
  {
    Join(["oauth", "providers", key, Snake(PROVIDER[f])], SEP)
  }

  lemma ProviderNameTokens(key: string, f: nat)
    requires f < |PROVIDER|
    ensures Split(ProviderName(key, f), SEP) == ["oauth", "providers"] + Split(key, SEP) + PROVIDER[f]
  {
    hide Split, Join;
    var tag := Snake(PROVIDER[f]);
    TagTokens(f);
    SplitWord("oauth", SEP);
    SplitWord("providers", SEP);
    SplitCons(key, [tag], SEP);
    SplitCons("providers", [key, tag], SEP);
    SplitCons("oauth", ["providers", key, tag], SEP);
    assert [key] + [tag] == [key, tag];
    assert ["providers"] + [key, tag] == ["providers", key, tag];
    assert ["oauth"] + ["providers", key, tag] == ["oauth", "providers", key, tag];
  }

  lemma TagTokens(f: nat)
    requires f < |PROVIDER|
    ensures Split(Join([Snake(PROVIDER[f])], SEP), SEP) == PROVIDER[f]
  {
    ProviderWords();
    SplitJoin(PROVIDER[f], SEP);
  }

  // In terms of the tokens: the names of provider fields, for every provider key, and of all paths of fields.
  lemma DecodesField(raw: string, r: Option<(string, Type)>, route: Route)
    requires Decodes(CONFIG_TYPE, raw, r) && Leads(CONFIG_TYPE, route) && MapFree(route)
    requires Lower(Trimmed(raw)) == Join(Path(CONFIG_TYPE, route), SEP)
    ensures r == Some((Join(Path(CONFIG_TYPE, route), '.'), End(CONFIG_TYPE, route)))
  {
    FieldPathsRoundTrip(route);
    PathNamesAreNotEmpty(route);
    DecodesFirst(raw, r, route);
  }

  // Any capitals in the name of a path of fields.
  lemma {:induction false} DecodesSpelling(r: Option<(string, Type)>, rest: string, route: Route)
    requires Decodes(CONFIG_TYPE, "BASE_" + rest, r) && Leads(CONFIG_TYPE, route) && MapFree(route)
    requires AnyCase(rest, Join(Path(CONFIG_TYPE, route), '_'))
    ensures r == Some((Join(Path(CONFIG_TYPE, route), '.'), End(CONFIG_TYPE, route)))
  {
    hide Decodes, Lower, Trimmed, Path, End, Leads, Join;
    ConfigWellTagged();
    PathNamesAreLower(CONFIG_TYPE, route);
    LowerOfAnyCase(rest, Join(Path(CONFIG_TYPE, route), '_'));
    AfterPrefix(rest);
    DecodesField("BASE_" + rest, r, route);
  }

  lemma DecodesProviderField(raw: string, r: Option<(string, Type)>, key: string, f: nat)
    requires Decodes(CONFIG_TYPE, raw, r) && f < |PROVIDER| && Lower(Trimmed(raw)) == ProviderName(key, f)
    ensures r == Some((Join(["oauth", "providers", key, Snake(PROVIDER[f])], '.'), PROVIDER_TYPE.fields[f].typ))
  {
    ProviderNameTokens(key, f);
    ProviderNamesDecode(Split(key, SEP), f);
    JoinSplit(key, SEP);
    assert Trimmed(raw) != "";
    DecodesFirst(raw, r, ProviderRoute(Split(key, SEP), f));
  }

  lemma FixedWordsAreLower()
    ensures LowerCase("oauth") && LowerCase("providers")
  {
  }

  lemma ProviderNameIsLower(key: string, f: nat)
    requires f < |PROVIDER| && LowerCase(key)
    ensures LowerCase(ProviderName(key, f))
  {
    FixedWordsAreLower();
    ProviderWords();
    SnakeIsLower(PROVIDER[f]);
    hide LowerCase, Snake;
    var tag := Snake(PROVIDER[f]);
    assert [key, tag][1..] == [tag] && Join([key, tag], SEP) == key + [SEP] + tag;
    LowerJoin(key, tag);
    assert ["providers", key, tag][1..] == [key, tag];
    LowerJoin("providers", Join([key, tag], SEP));
    assert ["oauth", "providers", key, tag][1..] == ["providers", key, tag];
    LowerJoin("oauth", Join(["providers", key, tag], SEP));
  }

  // envVarToConfigKey on the configuration type. A variable is the prefix and a name with any of its letters in
  // upper case; the names of all paths of fields, and those of provider fields for every provider key in lower
  // case, decode to the path they name and to its type.
  method ConfigKeyOf(raw: string) returns (r: Option<(string, Type)>)
    ensures Decodes(CONFIG_TYPE, raw, r)
    ensures forall route, rest | Leads(CONFIG_TYPE, route) && MapFree(route)
      && AnyCase(rest, Join(Path(CONFIG_TYPE, route), '_')) && raw == "BASE_" + rest ::
      r == Some((Join(Path(CONFIG_TYPE, route), '.'), End(CONFIG_TYPE, route)))
    ensures forall key: string, f: nat, rest | f < |PROVIDER| && LowerCase(key)
      && AnyCase(rest, Join(["oauth", "providers", key, Snake(PROVIDER[f])], '_')) && raw == "BASE_" + rest ::
      r == Some((Join(["oauth", "providers", key, Snake(PROVIDER[f])], '.'), PROVIDER_TYPE.fields[f].typ))
  {
    ghost var first;
    r, first := EnvVarToConfigKey(CONFIG_TYPE, raw);
    hide Decodes, Lower, Trimmed, Path, End, Leads, Snake, Join;
    forall route, rest | Leads(CONFIG_TYPE, route) && MapFree(route)
      && AnyCase(rest, Join(Path(CONFIG_TYPE, route), '_')) && raw == "BASE_" + rest
      ensures r == Some((Join(Path(CONFIG_TYPE, route), '.'), End(CONFIG_TYPE, route)))
    {
      DecodesSpelling(r, rest, route);
    }
    forall key: string, f: nat, rest | f < |PROVIDER| && LowerCase(key)
      && AnyCase(rest, Join(["oauth", "providers", key, Snake(PROVIDER[f])], '_')) && raw == "BASE_" + rest
      ensures r == Some((Join(["oauth", "providers", key, Snake(PROVIDER[f])], '.'), PROVIDER_TYPE.fields[f].typ))
    {
      ProviderNameIsLower(key, f);
      LowerOfAnyCase(rest, ProviderName(key, f));
      AfterPrefix(rest);
      DecodesProviderField(raw, r, key, f);
    }
  }

  lemma PathNamesAreNotEmpty(route: Route)
    requires Leads(CONFIG_TYPE, route) && MapFree(route)
    ensures Join(Path(CONFIG_TYPE, route), SEP) != ""
  {
    assert route[0] in route;
    assert ChoiceName(CONFIG_TYPE, route[0]) != "";
  }

  // The decoder's answer when a route is known to be the first.
  lemma DecodesFirst(raw: string, r: Option<(string, Type)>, route: Route)
    requires Decodes(CONFIG_TYPE, raw, r)
    requires Trimmed(raw) != "" && IsFirst(CONFIG_TYPE, NameTokens(raw), route)
    ensures r == Some((Join(Path(CONFIG_TYPE, route), '.'), End(CONFIG_TYPE, route)))
  {
    assert FirstRoute(CONFIG_TYPE, raw, route, (Join(Path(CONFIG_TYPE, route), '.'), End(CONFIG_TYPE, route)));
    DecodesOnce(CONFIG_TYPE, raw, r, Some((Join(Path(CONFIG_TYPE, route), '.'), End(CONFIG_TYPE, route))));
  }

  // ---- Names of the documentation ----

  // A field of a section of the configuration.
  lemma SectionField(i: nat, words: seq<seq<string>>, types: seq<Type>, k: nat)
    requires i < |ROOT| && |words| == |types| && AllClean(words) && k < |words|
    requires ROOT_TYPES[i] == Struct(Fields(words, types))
    ensures var route := [Tag(i), Tag(k)];
            && Leads(CONFIG_TYPE, route) && MapFree(route)
            && Path(CONFIG_TYPE, route) == [Snake(ROOT[i]), Snake(words[k])]
            && End(CONFIG_TYPE, route) == Indirect(types[k])
  {
    RootWords();
    FieldChoice(ROOT, ROOT_TYPES, i);
    FieldChoice(words, types, k);
    assert [Tag(i), Tag(k)][1..] == [Tag(k)];
  }

  lemma AppEnvRoute()
    ensures var route := [Tag(0), Tag(1)];
            && Leads(CONFIG_TYPE, route) && MapFree(route)
            && Path(CONFIG_TYPE, route) == ["app", "env"] && End(CONFIG_TYPE, route) == STR
  {
    AppWords();
    SectionField(0, APP, [STR, STR, STR], 1);
  }

  lemma AppEnvSpelling()
    ensures "BASE_APP_ENV" == "BASE_" + "APP_ENV" && AnyCase("APP_ENV", "app_env")
    ensures Join(["app", "env"], '_') == "app_env" && Join(["app", "env"], '.') == "app.env"
  {
  }

  lemma DatabaseUrlRoute()
    ensures var route := [Tag(2), Tag(0)];
            && Leads(CONFIG_TYPE, route) && MapFree(route)
            && Path(CONFIG_TYPE, route) == ["database", "url"] && End(CONFIG_TYPE, route) == STR
  {
    DatabaseWords();
    SectionField(2, DATABASE, [STR, INT, INT, DURATION, DURATION], 0);
  }

  lemma DatabaseUrlSpelling()
    ensures "BASE_DATABASE_URL" == "BASE_" + "DATABASE_URL" && AnyCase("DATABASE_URL", "database_url")
    ensures Join(["database", "url"], '_') == "database_url" && Join(["database", "url"], '.') == "database.url"
  {
  }

  // Two of the variables the documentation lists.
  lemma DocumentedNames(r: Option<(string, Type)>, q: Option<(string, Type)>)
    requires Decodes(CONFIG_TYPE, "BASE_APP_ENV", r) && Decodes(CONFIG_TYPE, "BASE_DATABASE_URL", q)
    ensures r == Some(("app.env", STR)) && q == Some(("database.url", STR))
  {
    hide Decodes, Leads, Path, End, Join, AnyCase, MapFree;
    AppEnvRoute();
    AppEnvSpelling();
    DecodesSpelling(r, "APP_ENV", [Tag(0), Tag(1)]);
    DatabaseUrlRoute();
    DatabaseUrlSpelling();
    DecodesSpelling(q, "DATABASE_URL", [Tag(2), Tag(0)]);
  }
}
