// Decoding the names of environment variables into configuration paths: a search over the type of the
// configuration, where both field tags and map keys may contain the separator.
module EnvNames {
  import opened Wrappers
  import opened Splitting

  const SEP: char := '_'

  // A configuration type. A field is found under its tag.
  datatype Type =
    | Leaf(name: string)
    | Pointer(target: Type)
    | Struct(fields: seq<Field>)
    | MapOf(elem: Type)

  datatype Field = Field(tag: string, typ: Type)
  {
    predicate Tagged() {
      tag != "" && tag != "-"
    }

    function Words(): (w: seq<string>)
      ensures w != []
    {
      Split(tag, SEP)
    }
  }

  function Indirect(t: Type): (r: Type)
    ensures !r.Pointer? && (r == t || r < t)
  {
    match t
    case Pointer(target) => Indirect(target)
    case _ => t
  }

  // ---- What a name means ----

  // A route through a type: fields by their position, map entries by the words of their key.
  datatype Choice = Tag(index: nat) | Key(words: seq<string>)

  type Route = seq<Choice>

  predicate ChoiceOk(t: Type, c: Choice) {
    var u := Indirect(t);
    match c
    case Tag(i) => u.Struct? && i < |u.fields| && u.fields[i].Tagged()
    case Key(words) => u.MapOf? && words != []
  }

  function ChoiceWords(t: Type, c: Choice): (w: seq<string>)
    requires ChoiceOk(t, c)
    ensures w != []
  {
    match c
    case Tag(i) => Indirect(t).fields[i].Words()
    case Key(words) => words
  }

  function ChoiceName(t: Type, c: Choice): string
    requires ChoiceOk(t, c)
  {
    match c
    case Tag(i) => Indirect(t).fields[i].tag
    case Key(words) => Join(words, SEP)
  }

  function ChoiceType(t: Type, c: Choice): Type
    requires ChoiceOk(t, c)
  {
    match c
    case Tag(i) => Indirect(Indirect(t).fields[i].typ)
    case Key(_) => Indirect(Indirect(t).elem)
  }

  predicate Leads(t: Type, route: Route) {
    route != [] && ChoiceOk(t, route[0]) && (|route| == 1 || Leads(ChoiceType(t, route[0]), route[1..]))
  }

  // The words a route spells, the path it names, and the type it ends at.
  function Spelling(t: Type, route: Route): (tokens: seq<string>)
    requires Leads(t, route)
    ensures tokens != []
  {
    ChoiceWords(t, route[0]) + if |route| == 1 then [] else Spelling(ChoiceType(t, route[0]), route[1..])
  }

  function Path(t: Type, route: Route): seq<string>
    requires Leads(t, route)
  {
    [ChoiceName(t, route[0])] + if |route| == 1 then [] else Path(ChoiceType(t, route[0]), route[1..])
  }

  function End(t: Type, route: Route): Type
    requires Leads(t, route)
  {
    if |route| == 1 then ChoiceType(t, route[0]) else End(ChoiceType(t, route[0]), route[1..])
  }

  predicate Spells(t: Type, route: Route, tokens: seq<string>) {
    Leads(t, route) && Spelling(t, route) == tokens
  }

  // The order of the search: fields as declared, shorter keys first.
  predicate Less(c: Choice, d: Choice) {
    match (c, d)
    case (Tag(i), Tag(k)) => i < k
    case (Key(v), Key(w)) => |v| < |w|
    case _ => false
  }

  predicate Earlier(r: Route, s: Route) {
    r != [] && s != [] && (Less(r[0], s[0]) || (r[0] == s[0] && Earlier(r[1..], s[1..])))
  }

  // The route is the first, in the order of the search, that spells the tokens.
  ghost predicate IsFirst(t: Type, tokens: seq<string>, route: Route) {
    Spells(t, route, tokens) && forall other :: Spells(t, other, tokens) ==> other == route || Earlier(route, other)
  }

  // Two routes cannot each come before the other.
  lemma {:induction false} EarlierIsStrict(r: Route, s: Route)
    requires Earlier(r, s)
    ensures !Earlier(s, r) && r != s
  {
    if !Less(r[0], s[0]) {
      EarlierIsStrict(r[1..], s[1..]);
    }
  }

  lemma FirstIsUnique(t: Type, tokens: seq<string>, r: Route, s: Route)
    requires IsFirst(t, tokens, r) && IsFirst(t, tokens, s)
    ensures r == s
  {
    if r != s {
      EarlierIsStrict(r, s);
    }
  }

  // ---- Routes, one choice at a time ----

  // A route that spells the tokens starts with a choice whose words begin them.
  lemma Uncons(t: Type, route: Route, tokens: seq<string>)
    requires Spells(t, route, tokens)
    ensures ChoiceOk(t, route[0])
    ensures var w := ChoiceWords(t, route[0]);
            && |w| <= |tokens| && tokens[..|w|] == w
            && (|w| == |tokens| <==> |route| == 1)
            && (|route| > 1 ==> Spells(ChoiceType(t, route[0]), route[1..], tokens[|w|..]))
  {
    var w := ChoiceWords(t, route[0]);
    if |route| > 1 {
      assert tokens[|w|..] == Spelling(ChoiceType(t, route[0]), route[1..]);
    }
  }

  lemma Cons(t: Type, c: Choice, rest: Route, tokens: seq<string>)
    requires ChoiceOk(t, c)
    requires var w := ChoiceWords(t, c);
             && |w| <= |tokens| && tokens[..|w|] == w
             && (if |w| == |tokens| then rest == [] else Spells(ChoiceType(t, c), rest, tokens[|w|..]))
    ensures Spells(t, [c] + rest, tokens)
    ensures Path(t, [c] + rest) == [ChoiceName(t, c)] + if rest == [] then [] else Path(ChoiceType(t, c), rest)
    ensures End(t, [c] + rest) == if rest == [] then ChoiceType(t, c) else End(ChoiceType(t, c), rest)
  {
    var w := ChoiceWords(t, c);
    assert ([c] + rest)[1..] == rest;
    assert tokens == w + tokens[|w|..];
  }

  // No route that starts with c spells the tokens.
  ghost predicate Dead(t: Type, tokens: seq<string>, c: Choice) {
    forall route: Route :: route != [] && route[0] == c ==> !Spells(t, route, tokens)
  }

  lemma DeadChoice(t: Type, tokens: seq<string>, c: Choice)
    requires ChoiceOk(t, c) ==>
               var w := ChoiceWords(t, c);
               w <= tokens ==> |w| < |tokens| && forall rest: Route :: !Spells(ChoiceType(t, c), rest, tokens[|w|..])
    ensures Dead(t, tokens, c)
  {
    forall route: Route | route != [] && route[0] == c ensures !Spells(t, route, tokens) {
      if Spells(t, route, tokens) {
        Uncons(t, route, tokens);
      }
    }
  }

  // A choice that leads to the tokens, after only dead ones, gives the first route.
  lemma FirstChoice(t: Type, tokens: seq<string>, c: Choice, rest: Route)
    requires ChoiceOk(t, c)
    requires var w := ChoiceWords(t, c);
             && w <= tokens
             && (if |w| == |tokens| then rest == [] else IsFirst(ChoiceType(t, c), tokens[|w|..], rest))
    requires forall d :: Less(d, c) ==> Dead(t, tokens, d)
    ensures IsFirst(t, tokens, [c] + rest)
  {
    var w, route := ChoiceWords(t, c), [c] + rest;
    Cons(t, c, rest, tokens);
    forall other | Spells(t, other, tokens) ensures other == route || Earlier(route, other) {
      Uncons(t, other, tokens);
      var d := other[0];
      assert other == [d] + other[1..] && route[1..] == rest;
      if d == c {
        assert other[1..] == rest || Earlier(rest, other[1..]);
      } else if !Less(c, d) {
        SameKey(t, tokens, c, d);
      }
    }
  }

  // Choices at one type that begin the same tokens are comparable.
  lemma SameKey(t: Type, tokens: seq<string>, c: Choice, d: Choice)
    requires ChoiceOk(t, c) && ChoiceOk(t, d) && c != d
    requires ChoiceWords(t, c) <= tokens && ChoiceWords(t, d) <= tokens
    ensures Less(c, d) || Less(d, c)
  {
  }

  // ---- The search ----

  method HasTokenPrefix(tokens: seq<string>, prefix: seq<string>) returns (ok: bool)
    ensures ok <==> prefix <= tokens
  {
    if |tokens| < |prefix| { return false; }
    for i := 0 to |prefix|
      invariant prefix[..i] == tokens[..i]
    {
      if tokens[i] != prefix[i] { return false; }
    }
    assert prefix[..|prefix|] == prefix;
    return true;
  }

  // What a search may answer: the first route, or that there is none.
  ghost predicate Answers(t: Type, tokens: seq<string>, path: seq<string>, r: Option<(seq<string>, Type)>,
                          route: Route)
  {
    if r.None? then forall other :: !Spells(t, other, tokens)
    else IsFirst(t, tokens, route) && r.value == (path + Path(t, route), End(t, route))
  }

  // The choice c ends the search.
  lemma AnswerHere(t: Type, tokens: seq<string>, path: seq<string>, c: Choice)
    requires ChoiceOk(t, c) && ChoiceWords(t, c) == tokens && forall d :: Less(d, c) ==> Dead(t, tokens, d)
    ensures Answers(t, tokens, path, Some((path + [ChoiceName(t, c)], ChoiceType(t, c))), [c])
    ensures Spells(t, [c], tokens)
  {
    assert [c] + [] == [c];
    FirstChoice(t, tokens, c, []);
    Cons(t, c, [], tokens);
    assert Path(t, [c]) == [ChoiceName(t, c)];
  }

  // The choice c hands on the answer found behind it.
  lemma AnswerBehind(t: Type, tokens: seq<string>, path: seq<string>, c: Choice,
                     sub: Option<(seq<string>, Type)>, rest: Route)
    requires ChoiceOk(t, c) && forall d :: Less(d, c) ==> Dead(t, tokens, d)
    requires var w := ChoiceWords(t, c);
             && w <= tokens && |w| < |tokens| && sub.Some?
             && Answers(ChoiceType(t, c), tokens[|w|..], path + [ChoiceName(t, c)], sub, rest)
    ensures Answers(t, tokens, path, sub, [c] + rest)
    ensures Spells(t, [c] + rest, tokens)
  {
    FirstChoice(t, tokens, c, rest);
    Cons(t, c, rest, tokens);
    var name := ChoiceName(t, c);
    assert path + [name] + Path(ChoiceType(t, c), rest) == path + ([name] + Path(ChoiceType(t, c), rest));
  }

  // Every choice is dead: the search has failed.
  lemma NoAnswer(t: Type, tokens: seq<string>, path: seq<string>, route: Route)
    requires forall c :: ChoiceOk(t, c) && ChoiceWords(t, c) <= tokens ==> Dead(t, tokens, c)
    ensures Answers(t, tokens, path, None, route) && forall other :: !Spells(t, other, tokens)
  {
    forall other: Route ensures !Spells(t, other, tokens) {
      if other != [] && ChoiceOk(t, other[0]) && !(ChoiceWords(t, other[0]) <= tokens) {
        DeadChoice(t, tokens, other[0]);
      }
    }
  }

  // Nothing is found behind a value that is neither a struct nor a map.
  lemma NoRoutes(t: Type, tokens: seq<string>)
    requires t.Leaf?
    ensures forall route :: !Spells(t, route, tokens)
  {
  }

  // Keys are not empty.
  lemma NoEmptyKey(t: Type, tokens: seq<string>)
    ensures Dead(t, tokens, Key([]))
  {
  }

  method MatchEnvTokens(t: Type, tokens: seq<string>, path: seq<string>)
    returns (r: Option<(seq<string>, Type)>, ghost route: Route)
    ensures r.None? <==> forall other :: !Spells(t, other, tokens)
    ensures Answers(t, tokens, path, r, route)
    decreases t
  {
    hide Answers, IsFirst, Earlier, Leads, Spells, Spelling, Path, End, Join;
    route := [];
    var u := Indirect(t);
    match u {
      case Struct(fields) =>
        for i := 0 to |fields|
          invariant forall k: nat :: k < i ==> Dead(t, tokens, Tag(k))
        {
          if fields[i].Tagged() {
            var words := fields[i].Words();
            var begins := HasTokenPrefix(tokens, words);
            if begins {
              var next, fieldType, remaining := path + [fields[i].tag], Indirect(fields[i].typ), tokens[|words|..];
              if |remaining| == 0 {
                AnswerHere(t, tokens, path, Tag(i));
                return Some((next, fieldType)), [Tag(i)];
              }
              if fieldType.Struct? || fieldType.MapOf? {
                var sub, rest := MatchEnvTokens(fieldType, remaining, next);
                if sub.Some? {
                  AnswerBehind(t, tokens, path, Tag(i), sub, rest);
                  return sub, [Tag(i)] + rest;
                }
              } else {
                NoRoutes(fieldType, remaining);
              }
            }
          }
          DeadChoice(t, tokens, Tag(i));
        }
      case MapOf(_) =>
        var elemType := Indirect(u.elem);
        NoEmptyKey(t, tokens);
        for keyLen := 1 to |tokens| + 1
          invariant forall words :: |words| < keyLen ==> Dead(t, tokens, Key(words))
        {
          var key := Join(tokens[..keyLen], SEP);
          var next, remaining := path + [key], tokens[keyLen..];
          if |remaining| == 0 {
            AnswerHere(t, tokens, path, Key(tokens[..keyLen]));
            return Some((next, elemType)), [Key(tokens[..keyLen])];
          }
          if elemType.Struct? || elemType.MapOf? {
            var sub, rest := MatchEnvTokens(elemType, remaining, next);
            if sub.Some? {
              AnswerBehind(t, tokens, path, Key(tokens[..keyLen]), sub, rest);
              return sub, [Key(tokens[..keyLen])] + rest;
            }
          } else {
            NoRoutes(elemType, remaining);
          }
          forall words | |words| == keyLen ensures Dead(t, tokens, Key(words)) {
            DeadChoice(t, tokens, Key(words));
          }
        }
      case Leaf(_) =>
      case Pointer(_) =>
    }
    NoAnswer(t, tokens, path, route);
    r := None;
  }

  // ---- Names ----

  const PREFIX := "BASE_"

  // strings.TrimPrefix
  function Trimmed(raw: string): string {
    if PREFIX <= raw then raw[|PREFIX|..] else raw
  }

  function NameTokens(raw: string): seq<string> {
    Split(Lower(Trimmed(raw)), SEP)
  }

  // Keys whose words are free of the separator, as the words of a split name are.
  predicate KeysClean(route: Route) {
    forall c :: c in route && c.Key? ==> forall w :: w in c.words ==> SEP !in w
  }

  // Joining the segments of a path and splitting the name gives the words of its route.
  lemma {:induction false} NameSpellsRoute(t: Type, route: Route)
    requires Leads(t, route) && KeysClean(route)
    ensures Split(Join(Path(t, route), SEP), SEP) == Spelling(t, route)
    decreases |route|
  {
    assert route[0] in route;
    if route[0].Key? {
      SplitJoin(route[0].words, SEP);
    }
    if |route| > 1 {
      var rest := route[1..];
      assert forall c :: c in rest ==> c in route;
      NameSpellsRoute(ChoiceType(t, route[0]), rest);
      var tail := Path(ChoiceType(t, route[0]), rest);
      assert Path(t, route)[1..] == tail;
      SplitBetween(ChoiceName(t, route[0]), Join(tail, SEP), SEP);
    }
  }

  lemma {:induction false} SpelledKeysAreClean(t: Type, route: Route, tokens: seq<string>)
    requires Spells(t, route, tokens) && forall w :: w in tokens ==> SEP !in w
    ensures KeysClean(route)
    decreases |route|
  {
    Uncons(t, route, tokens);
    var w := ChoiceWords(t, route[0]);
    if |route| > 1 {
      SpelledKeysAreClean(ChoiceType(t, route[0]), route[1..], tokens[|w|..]);
    }
    forall c, v | c in route && c.Key? && v in c.words ensures SEP !in v {
      assert c == route[0] || c in route[1..];
      if c == route[0] {
        assert v in tokens[..|w|];
      }
    }
  }

  // The path of any route that spells a name is the name again, when it is joined.
  lemma PathSpellsTheName(t: Type, route: Route, name: string)
    requires Spells(t, route, Split(name, SEP))
    ensures Join(Path(t, route), SEP) == name
  {
    SplitLeavesNoSeparator(name, SEP);
    SpelledKeysAreClean(t, route, Split(name, SEP));
    NameSpellsRoute(t, route);
    JoinSplit(name, SEP);
    JoinSplit(Join(Path(t, route), SEP), SEP);
  }

  // What a name may decode to: the key and the type of its first route, or nothing when it has none.
  ghost predicate Decodes(root: Type, raw: string, r: Option<(string, Type)>) {
    if r.None? then Trimmed(raw) == "" || forall other :: !Spells(root, other, NameTokens(raw))
    else
      && Trimmed(raw) != ""
      && exists route: Route :: FirstRoute(root, raw, route, r.value)
  }

  ghost predicate FirstRoute(root: Type, raw: string, route: Route, answer: (string, Type)) {
    IsFirst(root, NameTokens(raw), route) && answer == (Join(Path(root, route), '.'), End(root, route))
  }

  // A name decodes to one thing.
  lemma DecodesOnce(root: Type, raw: string, r: Option<(string, Type)>, q: Option<(string, Type)>)
    requires Decodes(root, raw, r) && Decodes(root, raw, q)
    ensures r == q
  {
    if r.Some? && q.Some? {
      var a: Route :| FirstRoute(root, raw, a, r.value);
      var b: Route :| FirstRoute(root, raw, b, q.value);
      FirstIsUnique(root, NameTokens(raw), a, b);
    }
  }

  // ---- The case of letters ----

  // A character of a name, or the capital letter of it.
  predicate SameLetter(c: char, d: char) {
    c == d || ('a' <= d <= 'z' && c as int == d as int - 32)
  }

  // The name with any of its letters in upper case.
  predicate AnyCase(raw: string, name: string) {
    |raw| == |name| && forall i :: 0 <= i < |name| ==> SameLetter(raw[i], name[i])
  }

  // A name without capital letters.
  predicate LowerCase(name: string) {
    forall i :: 0 <= i < |name| ==> !('A' <= name[i] <= 'Z')
  }

  lemma LowerOfAnyCase(raw: string, name: string)
    requires AnyCase(raw, name) && LowerCase(name)
    ensures Lower(raw) == name
  {
  }

  lemma AfterPrefix(rest: string)
    ensures Trimmed("BASE_" + rest) == rest
  {
    assert ("BASE_" + rest)[..5] == "BASE_";
  }

  lemma SameTokens(root: Type, a: string, b: string, r: Option<(string, Type)>)
    requires NameTokens(a) == NameTokens(b) && (Trimmed(a) == "" <==> Trimmed(b) == "") && Decodes(root, a, r)
    ensures Decodes(root, b, r)
  {
    hide NameTokens, Trimmed, IsFirst, Spells;
    if r.Some? {
      var route: Route :| FirstRoute(root, a, route, r.value);
      assert FirstRoute(root, b, route, r.value);
    }
  }

  lemma SameAnswer(root: Type, a: string, b: string, r: Option<(string, Type)>, q: Option<(string, Type)>)
    requires NameTokens(a) == NameTokens(b) && (Trimmed(a) == "" <==> Trimmed(b) == "")
    requires Decodes(root, a, r) && Decodes(root, b, q)
    ensures r == q
  {
    SameTokens(root, a, b, r);
    DecodesOnce(root, b, r, q);
  }

  lemma LowerOfSameLetters(a: string, b: string)
    requires |a| == |b| && forall i :: 0 <= i < |a| ==> SameLetter(a[i], b[i]) || SameLetter(b[i], a[i])
    ensures Lower(a) == Lower(b)
  {
  }

  // Two names that differ only in the case of letters after the prefix get the same answer.
  lemma CaseDoesNotMatter(root: Type, a: string, b: string, r: Option<(string, Type)>, q: Option<(string, Type)>)
    requires |a| == |b|
    requires forall i :: 0 <= i < |a| ==> SameLetter(a[i], b[i]) || SameLetter(b[i], a[i])
    requires Decodes(root, "BASE_" + a, r) && Decodes(root, "BASE_" + b, q)
    ensures r == q
  {
    LowerOfSameLetters(a, b);
    hide Lower, Decodes, Trimmed;
    AfterPrefix(a);
    AfterPrefix(b);
    SameAnswer(root, "BASE_" + a, "BASE_" + b, r, q);
  }

  // The configuration key of a variable, and the type of the value there.
  method EnvVarToConfigKey(root: Type, raw: string) returns (r: Option<(string, Type)>, ghost route: Route)
    ensures Decodes(root, raw, r)
    ensures Trimmed(raw) == "" ==> r.None?
    ensures Trimmed(raw) != "" && r.None? ==> forall other :: !Spells(root, other, NameTokens(raw))
    ensures r.Some? ==>
      && IsFirst(root, NameTokens(raw), route) && r.value == (Join(Path(root, route), '.'), End(root, route))
      && Join(Path(root, route), SEP) == Lower(Trimmed(raw))
  {
    route := [];
    var trimmed := Trimmed(raw);
    if trimmed == "" { return None, route; }
    var found, first := MatchEnvTokens(root, Split(Lower(trimmed), SEP), []);
    if found.None? { return None, route; }
    assert [] + Path(root, first) == Path(root, first);
    PathSpellsTheName(root, first, Lower(trimmed));
    assert FirstRoute(root, raw, first, (Join(found.value.0, '.'), found.value.1));
    return Some((Join(found.value.0, '.'), found.value.1)), first;
  }

  // ---- Names that decode to what they were built from ----

  predicate MapFree(route: Route) {
    forall c :: c in route ==> c.Tag?
  }

  predicate TagsPrefixFree(fields: seq<Field>) {
    forall i, k :: 0 <= i < |fields| && 0 <= k < |fields| && i != k ==> !(fields[i].Words() <= fields[k].Words())
  }

  // No tag of a struct anywhere in the type begins a sibling tag.
  predicate WellTagged(t: Type)
    decreases t
  {
    match t
    case Leaf(_) => true
    case Pointer(target) => WellTagged(target)
    case MapOf(elem) => WellTagged(elem)
    case Struct(fields) => TagsPrefixFree(fields) && forall f :: f in fields ==> WellTagged(f.typ)
  }

  lemma {:induction false} WellTaggedBehind(t: Type)
    requires WellTagged(t)
    ensures WellTagged(Indirect(t))
  {
    if t.Pointer? {
      WellTaggedBehind(t.target);
    }
  }

  // No tag anywhere in the type has a capital letter.
  predicate LowerTagged(t: Type)
    decreases t
  {
    match t
    case Leaf(_) => true
    case Pointer(target) => LowerTagged(target)
    case MapOf(elem) => LowerTagged(elem)
    case Struct(fields) => forall f :: f in fields ==> LowerCase(f.tag) && LowerTagged(f.typ)
  }

  lemma {:induction false} LowerTaggedBehind(t: Type)
    requires LowerTagged(t)
    ensures LowerTagged(Indirect(t))
  {
    if t.Pointer? {
      LowerTaggedBehind(t.target);
    }
  }

  lemma LowerJoin(a: string, rest: string)
    requires LowerCase(a) && LowerCase(rest)
    ensures LowerCase(a + [SEP] + rest)
  {
  }

  // So the name of a path of fields has none.
  lemma {:induction false} PathNamesAreLower(t: Type, route: Route)
    requires LowerTagged(t) && Leads(t, route) && MapFree(route)
    ensures LowerCase(Join(Path(t, route), SEP))
    decreases |route|
  {
    LowerTaggedBehind(t);
    assert route[0] in route;
    var f := Indirect(t).fields[route[0].index];
    assert f in Indirect(t).fields;
    if |route| > 1 {
      LowerTaggedBehind(f.typ);
      assert forall c :: c in route[1..] ==> c in route;
      PathNamesAreLower(ChoiceType(t, route[0]), route[1..]);
      var tail := Path(ChoiceType(t, route[0]), route[1..]);
      assert Path(t, route)[1..] == tail;
      LowerJoin(f.tag, Join(tail, SEP));
    }
  }

  // Along fields only, a name has one reading: whatever else spells it is the same route.
  lemma {:induction false} MapFreeNamesAreUnambiguous(t: Type, r: Route, s: Route, tokens: seq<string>)
    requires WellTagged(t) && MapFree(r) && Spells(t, r, tokens) && Spells(t, s, tokens)
    ensures r == s
    decreases |r|
  {
    WellTaggedBehind(t);
    Uncons(t, r, tokens);
    Uncons(t, s, tokens);
    assert r[0] in r;
    assert r[0] == s[0];
    if |r| > 1 {
      var f := Indirect(t).fields[r[0].index];
      assert f in Indirect(t).fields;
      WellTaggedBehind(f.typ);
      assert forall c :: c in r[1..] ==> c in r;
      MapFreeNamesAreUnambiguous(ChoiceType(t, r[0]), r[1..], s[1..], tokens[|ChoiceWords(t, r[0])|..]);
    }
    assert r == [r[0]] + r[1..] && s == [s[0]] + s[1..];
  }

  // So a path of fields round trips: its name decodes to it, and nothing else spells the name.
  lemma {:induction false} MapFreePathsRoundTrip(t: Type, route: Route)
    requires WellTagged(t) && Leads(t, route) && MapFree(route)
    ensures var tokens := Split(Join(Path(t, route), SEP), SEP);
            IsFirst(t, tokens, route) && forall other :: Spells(t, other, tokens) ==> other == route
  {
    NameSpellsRoute(t, route);
    var tokens := Spelling(t, route);
    forall other | Spells(t, other, tokens) ensures other == route {
      MapFreeNamesAreUnambiguous(t, route, other, tokens);
    }
  }
}
