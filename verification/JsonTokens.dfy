// Which JSON documents a frame may be. The checker walks the token stream of a
// decoder that supplies the lexical layer: tokens, and the rule that brackets match.
module JsonTokens {
  import opened Basics

  const MAX_DEPTH := 16
  const MAX_STRING := 1024

  datatype Shape = Object | Array

  // Texts are sequences of bytes. Numbers, truth values and null are plain.
  datatype Token = Open(shape: Shape) | Close(shape: Shape) | Text(text: string) | Plain

  predicate KeyByte(c: char) {
    'a' <= c <= 'z' || '0' <= c <= '9' || c == '_'
  }

  predicate ValidKey(key: string) {
    0 < |key| <= MAX_STRING && forall i :: 0 <= i < |key| ==> KeyByte(key[i])
  }

  /* The checker */

  // What is left of the tokens after one value, unless it is refused.
  function Visit(ts: seq<Token>, depth: nat): (r: Option<seq<Token>>)
    ensures r.Some? ==> |r.value| < |ts|
    decreases |ts|, 1
  {
    if depth > MAX_DEPTH || ts == [] then None
    else match ts[0]
      case Plain => Some(ts[1..])
      case Text(text) => if |text| > MAX_STRING then None else Some(ts[1..])
      case Open(Object) => Members(ts[1..], depth, {})
      case Open(Array) => Elements(ts[1..], depth)
      case Close(_) => None
  }

  function Members(ts: seq<Token>, depth: nat, seen: set<string>): (r: Option<seq<Token>>)
    ensures r.Some? ==> |r.value| < |ts|
    decreases |ts|, 0
  {
    if ts == [] then None
    else match ts[0]
      case Close(shape) => if shape == Object then Some(ts[1..]) else None
      case Text(key) =>
        if !ValidKey(key) || key in seen then None
        else
          var rest := Visit(ts[1..], depth + 1);
          if rest.None? then None else Members(rest.value, depth, seen + {key})
      case _ => None
  }

  function Elements(ts: seq<Token>, depth: nat): (r: Option<seq<Token>>)
    ensures r.Some? ==> |r.value| < |ts|
    decreases |ts|, 2
  {
    if ts == [] then None
    else if ts[0].Close? then if ts[0].shape == Array then Some(ts[1..]) else None
    else
      var rest := Visit(ts, depth + 1);
      if rest.None? then None else Elements(rest.value, depth)
  }

  // Exactly one value and nothing after it.
  predicate Accepted(ts: seq<Token>) {
    Visit(ts, 0) == Some([])
  }

  // The decoder that the checker consumes.
  class Decoder {
    var tokens: seq<Token>

    constructor (ts: seq<Token>)
      ensures tokens == ts
    {
      tokens := ts;
    }

    // Whether the current array or object has another element.
    predicate More()
      reads this
    {
      tokens != [] && !tokens[0].Close?
    }

    method Next() returns (token: Option<Token>)
      modifies this
      ensures old(tokens) == [] ==> token.None? && tokens == []
      ensures old(tokens) != [] ==> token == Some(old(tokens)[0]) && tokens == old(tokens)[1..]
    {
      if tokens == [] {
        return None;
      }
      token, tokens := Some(tokens[0]), tokens[1..];
    }

    method VisitValue(depth: nat) returns (ok: bool)
      modifies this
      ensures ok <==> Visit(old(tokens), depth).Some?
      ensures ok ==> tokens == Visit(old(tokens), depth).value
      ensures |tokens| <= |old(tokens)|
      decreases |tokens|, 1
    {
      if depth > MAX_DEPTH {
        return false;
      }
      var token := Next();
      if token.None? {
        return false;
      }
      match token.value
      case Plain => ok := true;
      case Text(text) => ok := |text| <= MAX_STRING;
      case Open(Object) => ok := VisitMembers(depth);
      case Open(Array) => ok := VisitElements(depth);
      case Close(_) => ok := false;
    }

    method VisitMembers(depth: nat) returns (ok: bool)
      modifies this
      ensures ok <==> Members(old(tokens), depth, {}).Some?
      ensures ok ==> tokens == Members(old(tokens), depth, {}).value
      ensures |tokens| <= |old(tokens)|
      decreases |tokens|, 0
    {
      var seen: set<string> := {};
      while More()
        invariant |tokens| <= |old(tokens)|
        invariant Members(tokens, depth, seen) == Members(old(tokens), depth, {})
        decreases |tokens|
      {
        var key := Next();
        if !key.value.Text? || !ValidKey(key.value.text) || key.value.text in seen {
          return false;
        }
        seen := seen + {key.value.text};
        var visited := VisitValue(depth + 1);
        if !visited {
          return false;
        }
      }
      var token := Next();
      ok := token == Some(Close(Object));
    }

    method VisitElements(depth: nat) returns (ok: bool)
      modifies this
      ensures ok <==> Elements(old(tokens), depth).Some?
      ensures ok ==> tokens == Elements(old(tokens), depth).value
      ensures |tokens| <= |old(tokens)|
      decreases |tokens|, 2
    {
      while More()
        invariant |tokens| <= |old(tokens)|
        invariant Elements(tokens, depth) == Elements(old(tokens), depth)
        decreases |tokens|
      {
        var visited := VisitValue(depth + 1);
        if !visited {
          return false;
        }
      }
      var token := Next();
      ok := token == Some(Close(Array));
    }

    method Check() returns (ok: bool)
      modifies this
      ensures ok <==> Accepted(old(tokens))
    {
      ok := VisitValue(0);
      if ok {
        var token := Next();
        ok := token.None?;
      }
    }
  }

  /* What is accepted */

  datatype Json = Value | String(text: string) | List(elements: seq<Json>) | Record(members: seq<Member>)

  datatype Member = Member(key: string, value: Json)

  function Tokens(j: Json): seq<Token> {
    match j
    case Value => [Plain]
    case String(text) => [Text(text)]
    case List(elements) => [Open(Array)] + ElementTokens(elements) + [Close(Array)]
    case Record(members) => [Open(Object)] + MemberTokens(members) + [Close(Object)]
  }

  function ElementTokens(js: seq<Json>): seq<Token> {
    if js == [] then [] else Tokens(js[0]) + ElementTokens(js[1..])
  }

  function MemberTokens(ms: seq<Member>): seq<Token> {
    if ms == [] then [] else [Text(ms[0].key)] + Tokens(ms[0].value) + MemberTokens(ms[1..])
  }

  // A value that may stand at a depth: not too deep, no long string, and only
  // distinct plain lower-case keys in every object.
  predicate Fits(j: Json, depth: nat) {
    && depth <= MAX_DEPTH
    && match j
       case Value => true
       case String(text) => |text| <= MAX_STRING
       case List(elements) => forall i :: 0 <= i < |elements| ==> Fits(elements[i], depth + 1)
       case Record(members) =>
         && (forall i :: 0 <= i < |members| ==> ValidKey(members[i].key) && Fits(members[i].value, depth + 1))
         && forall i, k :: 0 <= i < k < |members| ==> members[i].key != members[k].key
  }

  lemma {:induction false} VisitAccepts(j: Json, depth: nat, rest: seq<Token>)
    requires Fits(j, depth)
    ensures Visit(Tokens(j) + rest, depth) == Some(rest)
    decreases j
  {
    match j
    case List(elements) =>
      assert (Tokens(j) + rest)[1..] == ElementTokens(elements) + ([Close(Array)] + rest);
      ElementsAccept(elements, depth, rest);
    case Record(members) =>
      assert (Tokens(j) + rest)[1..] == MemberTokens(members) + ([Close(Object)] + rest);
      MembersAccept(members, depth, {}, rest);
    case _ =>
      assert (Tokens(j) + rest)[1..] == rest;
  }

  lemma {:induction false} ElementsAccept(js: seq<Json>, depth: nat, rest: seq<Token>)
    requires forall i :: 0 <= i < |js| ==> Fits(js[i], depth + 1)
    ensures Elements(ElementTokens(js) + ([Close(Array)] + rest), depth) == Some(rest)
    decreases js
  {
    if js == [] {
      assert ElementTokens(js) + ([Close(Array)] + rest) == [Close(Array)] + rest;
    } else {
      var tail := ElementTokens(js[1..]) + ([Close(Array)] + rest);
      assert ElementTokens(js) + ([Close(Array)] + rest) == Tokens(js[0]) + tail;
      VisitAccepts(js[0], depth + 1, tail);
      ElementsAccept(js[1..], depth, rest);
    }
  }

  lemma MembersTake(key: string, after: seq<Token>, depth: nat, seen: set<string>, tail: seq<Token>)
    requires ValidKey(key) && key !in seen && Visit(after, depth + 1) == Some(tail)
    ensures Members([Text(key)] + after, depth, seen) == Members(tail, depth, seen + {key})
  {
    var all := [Text(key)] + after;
    assert all[0] == Text(key) && all[1..] == after;
    hide ValidKey, Visit;
  }

  lemma {:induction false} MembersAccept(ms: seq<Member>, depth: nat, seen: set<string>, rest: seq<Token>)
    requires forall i :: 0 <= i < |ms| ==> ValidKey(ms[i].key) && Fits(ms[i].value, depth + 1) && ms[i].key !in seen
    requires forall i, k :: 0 <= i < k < |ms| ==> ms[i].key != ms[k].key
    ensures Members(MemberTokens(ms) + ([Close(Object)] + rest), depth, seen) == Some(rest)
    decreases ms
  {
    if ms == [] {
      assert MemberTokens(ms) + ([Close(Object)] + rest) == [Close(Object)] + rest;
    } else {
      var tail := MemberTokens(ms[1..]) + ([Close(Object)] + rest);
      assert MemberTokens(ms) + ([Close(Object)] + rest) == [Text(ms[0].key)] + (Tokens(ms[0].value) + tail);
      VisitAccepts(ms[0].value, depth + 1, tail);
      hide Visit, Members, ValidKey, Fits;
      MembersTake(ms[0].key, Tokens(ms[0].value) + tail, depth, seen, tail);
      MembersAccept(ms[1..], depth, seen + {ms[0].key}, rest);
    }
  }

  lemma {:induction false} VisitFinds(ts: seq<Token>, depth: nat) returns (j: Json)
    requires Visit(ts, depth).Some?
    ensures Fits(j, depth) && ts == Tokens(j) + Visit(ts, depth).value
    decreases |ts|, 1
  {
    match ts[0]
    case Plain => j := Value;
    case Text(text) => j := String(text);
    case Open(Object) =>
      var members := MembersFind(ts[1..], depth, {});
      j := Record(members);
    case Open(Array) =>
      var elements := ElementsFind(ts[1..], depth);
      j := List(elements);
  }

  lemma {:induction false} ElementsFind(ts: seq<Token>, depth: nat) returns (js: seq<Json>)
    requires Elements(ts, depth).Some?
    ensures forall i :: 0 <= i < |js| ==> Fits(js[i], depth + 1)
    ensures ts == ElementTokens(js) + ([Close(Array)] + Elements(ts, depth).value)
    decreases |ts|, 2
  {
    if ts[0].Close? {
      js := [];
    } else {
      var first := VisitFinds(ts, depth + 1);
      var others := ElementsFind(Visit(ts, depth + 1).value, depth);
      js := [first] + others;
      assert js[1..] == others;
    }
  }

  lemma {:induction false} MembersFind(ts: seq<Token>, depth: nat, seen: set<string>) returns (ms: seq<Member>)
    requires Members(ts, depth, seen).Some?
    ensures forall i :: 0 <= i < |ms| ==> ValidKey(ms[i].key) && Fits(ms[i].value, depth + 1) && ms[i].key !in seen
    ensures forall i, k :: 0 <= i < k < |ms| ==> ms[i].key != ms[k].key
    ensures ts == MemberTokens(ms) + ([Close(Object)] + Members(ts, depth, seen).value)
    decreases |ts|, 0
  {
    if ts[0].Close? {
      ms := [];
    } else {
      var key := ts[0].text;
      var value := VisitFinds(ts[1..], depth + 1);
      var others := MembersFind(Visit(ts[1..], depth + 1).value, depth, seen + {key});
      ms := [Member(key, value)] + others;
      assert ms[1..] == others;
    }
  }

  // Accepted are exactly the token streams of one value that fits.
  lemma AcceptedExactlyWhenFits(ts: seq<Token>)
    ensures Accepted(ts) <==> exists j :: Fits(j, 0) && Tokens(j) == ts
  {
    if Accepted(ts) {
      var j := VisitFinds(ts, 0);
      assert Tokens(j) == ts;
    }
    forall j | Fits(j, 0) && Tokens(j) == ts ensures Accepted(ts) {
      VisitAccepts(j, 0, []);
      assert Tokens(j) + [] == ts;
    }
  }

  // An accepted key has one to 1024 bytes of the plain alphabet.
  lemma KeysAre(key: string)
    ensures ValidKey(key) <==>
            1 <= |key| <= 1024 && forall i :: 0 <= i < |key| ==> key[i] in "abcdefghijklmnopqrstuvwxyz0123456789_"
  {
    forall i | 0 <= i < |key| ensures KeyByte(key[i]) <==> key[i] in "abcdefghijklmnopqrstuvwxyz0123456789_" {
      Alphabet(key[i]);
    }
  }

  lemma Alphabet(c: char)
    ensures KeyByte(c) <==> c in "abcdefghijklmnopqrstuvwxyz0123456789_"
  {
    var letters := "abcdefghijklmnopqrstuvwxyz";
    var all := letters + "0123456789_";
    assert forall i :: 0 <= i < 26 ==> letters[i] == 'a' + i as char;
    assert forall i :: 0 <= i < 10 ==> "0123456789_"[i] == '0' + i as char;
    if 'a' <= c <= 'z' {
      assert letters[c as int - 97] == c;
      assert all[c as int - 97] == c;
    } else if '0' <= c <= '9' {
      assert all[26 + (c as int - 48)] == c;
    } else if c == '_' {
      assert all[36] == c;
    }
  }

  /* Matching keys to fields */

  // Here texts are read as characters; an accepted key is the same either way.
  // How the decoder folds case when no field has exactly the name of a key: Latin
  // capitals, and the two other characters that fold to Latin letters.
  function FoldChar(c: char): char {
    if 'A' <= c <= 'Z' then c - 'A' + 'a'
    else if c == '\U{17f}' then 's'
    else if c == '\U{212a}' then 'k'
    else c
  }

  function Fold(s: string): string {
    seq(|s|, i requires 0 <= i < |s| => FoldChar(s[i]))
  }

  // What folds to a character that a key may have: the character, its capital, and
  // for s and k one character more.
  lemma FoldsTo(c: char, d: char)
    requires KeyByte(d)
    ensures FoldChar(c) == d <==>
            || c == d
            || ('a' <= d <= 'z' && c as int == d as int - 32)
            || (d == 's' && c == '\U{17f}')
            || (d == 'k' && c == '\U{212a}')
  {
  }

  // For accepted keys and fields named like them, folding makes no difference: no
  // key can stand for another field.
  lemma FoldedMatchIsExact(key: string, field: string)
    requires ValidKey(key) && ValidKey(field)
    ensures Fold(key) == Fold(field) <==> key == field
  {
    if Fold(key) == Fold(field) {
      assert |key| == |Fold(key)| == |field|;
      forall i | 0 <= i < |key| ensures key[i] == field[i] {
        assert Fold(key)[i] == Fold(field)[i];
      }
    }
  }

  // Without the restriction one could: a long s folds to the s of "seq".
  lemma UnrestrictedKeysCollide()
    ensures "\U{17f}eq" != "seq" && Fold("\U{17f}eq") == Fold("seq") && !ValidKey("\U{17f}eq")
  {
    var long := "\U{17f}eq";
    assert long[0] == '\U{17f}' && !KeyByte(long[0]);
    assert Fold(long)[0] == 's' && Fold(long)[1] == 'e' && Fold(long)[2] == 'q';
    assert Fold("seq")[0] == 's' && Fold("seq")[1] == 'e' && Fold("seq")[2] == 'q';
  }
}
