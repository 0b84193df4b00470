/** The registration keys of internal/durablecore/keys.go: when two handlers get the same key,
    and why the four families of keys never meet. */
module Keys {

  function HandlerKey(kind: string, resultKind: string): string {
    "handler:" + kind + ":" + resultKind
  }

  function SendKey(inputKind: string, externalInputKind: string, resultKind: string): string {
    "send:" + inputKind + ":" + externalInputKind + ":" + resultKind
  }

  function CallKey(inputKind: string, externalReqKind: string, externalRespKind: string, resultKind: string): string {
    "call:" + inputKind + ":" + externalReqKind + ":" + externalRespKind + ":" + resultKind
  }

  function ErrorKey(primaryKey: string): string {
    "error:" + primaryKey
  }

  /** A key that one of the three Register functions can produce. */
  ghost predicate Primary(key: string) {
    || (exists a, b :: key == HandlerKey(a, b))
    || (exists a, b, c :: key == SendKey(a, b, c))
    || (exists a, b, c, d :: key == CallKey(a, b, c, d))
  }

  // ----- Joining kinds with colons, and splitting them again -----

  function Colons(s: string): nat {
    if s == [] then 0 else (if s[0] == ':' then 1 else 0) + Colons(s[1..])
  }

  function Join(parts: seq<string>): string
    requires parts != []
  {
    if |parts| == 1 then parts[0] else parts[0] + ":" + Join(parts[1..])
  }

  function Split(s: string): (parts: seq<string>)
    ensures parts != []
  {
    if s == [] then [""]
    else
      var rest := Split(s[1..]);
      if s[0] == ':' then [""] + rest else [[s[0]] + rest[0]] + rest[1..]
  }

  ghost predicate ColonFree(parts: seq<string>) {
    forall i :: 0 <= i < |parts| ==> Colons(parts[i]) == 0
  }

  function TotalColons(parts: seq<string>): nat {
    if parts == [] then 0 else Colons(parts[0]) + TotalColons(parts[1..])
  }

  lemma {:induction false} ColonsConcat(a: string, b: string)
    ensures Colons(a + b) == Colons(a) + Colons(b)
  {
    if a == [] {
      assert a + b == b;
    } else {
      assert (a + b)[1..] == a[1..] + b;
      ColonsConcat(a[1..], b);
    }
  }

  lemma {:induction false} TotalColonsZero(parts: seq<string>)
    ensures TotalColons(parts) == 0 <==> ColonFree(parts)
  {
    if parts != [] {
      TotalColonsZero(parts[1..]);
      assert ColonFree(parts) ==> ColonFree(parts[1..]);
      assert parts == [parts[0]] + parts[1..];
    }
  }

  lemma {:induction false} ColonsOfJoin(parts: seq<string>)
    requires parts != []
    ensures Colons(Join(parts)) == TotalColons(parts) + |parts| - 1
  {
    if |parts| > 1 {
      ColonsOfJoin(parts[1..]);
      ColonsConcat(parts[0] + ":", Join(parts[1..]));
      ColonsConcat(parts[0], ":");
    }
  }

  /** Prefixing a colon-free part lengthens only the first part of a split. */
  lemma {:induction false} SplitPrefix(a: string, s: string)
    requires Colons(a) == 0
    ensures Split(a + s) == [a + Split(s)[0]] + Split(s)[1..]
  {
    if a == [] {
      assert a + s == s;
      assert a + Split(s)[0] == Split(s)[0];
    } else {
      assert (a + s)[1..] == a[1..] + s;
      SplitPrefix(a[1..], s);
      assert [a[0]] + (a[1..] + Split(s)[0]) == a + Split(s)[0];
    }
  }

  /** Splitting undoes joining, for colon-free parts. */
  lemma {:induction false} SplitJoin(parts: seq<string>)
    requires parts != [] && ColonFree(parts)
    ensures Split(Join(parts)) == parts
  {
    if |parts| == 1 {
      SplitPrefix(parts[0], "");
      assert parts[0] + "" == parts[0];
    } else {
      SplitJoin(parts[1..]);
      var rest := Join(parts[1..]);
      assert parts[0] + ":" + rest == parts[0] + (":" + rest);
      assert (":" + rest)[1..] == rest;
      SplitPrefix(parts[0], ":" + rest);
      assert parts[0] + "" == parts[0];
    }
  }

  /** Two lists of the same length, one of them colon-free, that join to the same text are equal. */
  lemma JoinUnique(p: seq<string>, q: seq<string>)
    requires p != [] && |p| == |q| && ColonFree(p) && Join(p) == Join(q)
    ensures p == q
  {
    ColonsOfJoin(p);
    ColonsOfJoin(q);
    TotalColonsZero(p);
    TotalColonsZero(q);
    SplitJoin(p);
    SplitJoin(q);
  }

  lemma {:induction false} ColonInside(s: string) returns (x: string, y: string)
    requires Colons(s) > 0
    ensures s == x + ":" + y
  {
    if s[0] == ':' {
      x, y := "", s[1..];
    } else {
      var x', y' := ColonInside(s[1..]);
      x, y := [s[0]] + x', y';
      assert s == [s[0]] + s[1..];
    }
  }

  lemma JoinCons(a: string, b: string, rest: seq<string>)
    ensures Join([a, b] + rest) == a + ":" + Join([b] + rest)
  {
    assert ([a, b] + rest)[1..] == [b] + rest;
  }

  lemma Reassociate(x: string, y: string, z: string)
    ensures x + ":" + y + ":" + z == x + ":" + (y + ":" + z)
  {}

  /** A list of at least two parts that is not colon-free joins to the same text as another list of
      the same length. */
  lemma {:induction false} JoinCollides(p: seq<string>) returns (q: seq<string>)
    requires |p| >= 2 && !ColonFree(p)
    ensures |q| == |p| && q != p && Join(q) == Join(p)
  {
    var rest := p[2..];
    assert p == [p[0], p[1]] + rest && p[1..] == [p[1]] + rest;
    JoinCons(p[0], p[1], rest);
    if Colons(p[0]) > 0 {
      var x, y := ColonInside(p[0]);
      if |p| == 2 {
        q := [x, y + ":" + p[1]];
        JoinCons(x, y + ":" + p[1], []);
        Reassociate(x, y, p[1]);
      } else {
        var last := p[3..];
        assert rest == [p[2]] + last;
        q := [x, y] + ([p[1] + ":" + p[2]] + last);
        JoinCons(x, y, [p[1] + ":" + p[2]] + last);
        assert [y] + ([p[1] + ":" + p[2]] + last) == [y, p[1] + ":" + p[2]] + last;
        JoinCons(y, p[1] + ":" + p[2], last);
        assert [p[1]] + rest == [p[1], p[2]] + last;
        JoinCons(p[1], p[2], last);
        JoinFirst(p[1] + ":", p[2], last);
        Reassociate(x, y, Join([p[1]] + rest));
      }
      assert |q[0]| < |p[0]|;
    } else if |p| == 2 {
      assert Colons(p[1]) > 0;
      var x, y := ColonInside(p[1]);
      q := [p[0] + ":" + x, y];
      JoinCons(p[0] + ":" + x, y, []);
      Reassociate(p[0], x, y);
      assert |q[1]| < |p[1]|;
    } else {
      var i :| 0 <= i < |p| && Colons(p[i]) != 0;
      assert p[1..][i - 1] == p[i];
      var q' := JoinCollides(p[1..]);
      q := [p[0]] + q';
      assert q[1..] == q';
    }
  }

  /** Text put before the first part goes before the joined text. */
  lemma JoinFirst(x: string, a: string, rest: seq<string>)
    ensures Join([x + a] + rest) == x + Join([a] + rest)
  {
    assert ([x + a] + rest)[1..] == rest && ([a] + rest)[1..] == rest;
    if rest != [] {
      assert x + a + ":" + Join(rest) == x + (a + ":" + Join(rest));
    }
  }

  // ----- Exactly which kinds give a key of their own -----

  lemma HandlerKeyIsJoin(p: seq<string>)
    requires |p| == 2
    ensures HandlerKey(p[0], p[1]) == "handler:" + Join(p)
  {
    assert p == [p[0], p[1]] + [];
    JoinCons(p[0], p[1], []);
    assert HandlerKey(p[0], p[1]) == "handler:" + (p[0] + ":" + p[1]);
  }

  lemma SendKeyIsJoin(p: seq<string>)
    requires |p| == 3
    ensures SendKey(p[0], p[1], p[2]) == "send:" + Join(p)
  {
    assert p == [p[0], p[1], p[2]];
    JoinThree(p[0], p[1], p[2]);
    assert SendKey(p[0], p[1], p[2]) == "send:" + (p[0] + ":" + p[1] + ":" + p[2]);
  }

  lemma JoinThree(a: string, b: string, c: string)
    ensures Join([a, b, c]) == a + ":" + b + ":" + c
  {
    assert [a, b, c] == [a, b] + [c] && [b] + [c] == [b, c] + [];
    JoinCons(a, b, [c]);
    JoinCons(b, c, []);
    Reassociate(a, b, c);
  }

  lemma CallKeyIsJoin(p: seq<string>)
    requires |p| == 4
    ensures CallKey(p[0], p[1], p[2], p[3]) == "call:" + Join(p)
  {
    assert p == [p[0], p[1]] + [p[2], p[3]] && [p[1]] + [p[2], p[3]] == [p[1], p[2], p[3]];
    JoinCons(p[0], p[1], [p[2], p[3]]);
    JoinThree(p[1], p[2], p[3]);
    CallKeyTail(p[0], p[1], p[2], p[3]);
  }

  lemma CallKeyTail(a: string, b: string, c: string, d: string)
    ensures CallKey(a, b, c, d) == "call:" + (a + ":" + (b + ":" + c + ":" + d))
  {}

  lemma SamePrefix(x: string, a: string, b: string)
    ensures x + a == x + b <==> a == b
  {
    assert (x + a)[|x|..] == a && (x + b)[|x|..] == b;
  }

  ghost predicate HandlerKeyIsUnique(p: seq<string>)
    requires |p| == 2
  {
    forall q: seq<string> {:trigger q[0]} :: |q| == 2 && HandlerKey(q[0], q[1]) == HandlerKey(p[0], p[1]) ==> q == p
  }

  ghost predicate SendKeyIsUnique(p: seq<string>)
    requires |p| == 3
  {
    forall q: seq<string> {:trigger q[0]} ::
      |q| == 3 && SendKey(q[0], q[1], q[2]) == SendKey(p[0], p[1], p[2]) ==> q == p
  }

  ghost predicate CallKeyIsUnique(p: seq<string>)
    requires |p| == 4
  {
    forall q: seq<string> {:trigger q[0]} ::
      |q| == 4 && CallKey(q[0], q[1], q[2], q[3]) == CallKey(p[0], p[1], p[2], p[3]) ==> q == p
  }

  /** A handler key identifies its two kinds exactly when neither holds a colon. */
  lemma HandlerKeyUnique(p: seq<string>)
    requires |p| == 2
    ensures HandlerKeyIsUnique(p) <==> ColonFree(p)
  {
    HandlerKeyIsJoin(p);
    if ColonFree(p) {
      forall q: seq<string> | |q| == 2 && HandlerKey(q[0], q[1]) == HandlerKey(p[0], p[1]) ensures q == p {
        HandlerKeyIsJoin(q);
        SamePrefix("handler:", Join(p), Join(q));
        JoinUnique(p, q);
      }
    } else {
      var q := JoinCollides(p);
      HandlerKeyIsJoin(q);
      assert HandlerKey(q[0], q[1]) == HandlerKey(p[0], p[1]);
    }
  }

  /** A send key identifies its three kinds exactly when none holds a colon. */
  lemma SendKeyUnique(p: seq<string>)
    requires |p| == 3
    ensures SendKeyIsUnique(p) <==> ColonFree(p)
  {
    SendKeyIsJoin(p);
    if ColonFree(p) {
      forall q: seq<string> | |q| == 3 && SendKey(q[0], q[1], q[2]) == SendKey(p[0], p[1], p[2]) ensures q == p {
        SendKeyIsJoin(q);
        SamePrefix("send:", Join(p), Join(q));
        JoinUnique(p, q);
      }
    } else {
      var q := JoinCollides(p);
      SendKeyIsJoin(q);
      assert SendKey(q[0], q[1], q[2]) == SendKey(p[0], p[1], p[2]);
    }
  }

  /** A call key identifies its four kinds exactly when none holds a colon. */
  lemma CallKeyUnique(p: seq<string>)
    requires |p| == 4
    ensures CallKeyIsUnique(p) <==> ColonFree(p)
  {
    CallKeyIsJoin(p);
    if ColonFree(p) {
      forall q: seq<string> | |q| == 4 && CallKey(q[0], q[1], q[2], q[3]) == CallKey(p[0], p[1], p[2], p[3])
        ensures q == p
      {
        CallKeyIsJoin(q);
        SamePrefix("call:", Join(p), Join(q));
        JoinUnique(p, q);
      }
    } else {
      var q := JoinCollides(p);
      CallKeyIsJoin(q);
      assert CallKey(q[0], q[1], q[2], q[3]) == CallKey(p[0], p[1], p[2], p[3]);
    }
  }

  // ----- The four families -----

  /** Whatever the kinds are, keys of different families differ: no recovery key is ever a primary
      key, and a primary key is of one family only. */
  lemma FamiliesDisjoint(a: string, b: string, p: string, q: string, r: string, w: string, x: string, y: string,
                         z: string, e: string)
    ensures HandlerKey(a, b) != SendKey(p, q, r) && HandlerKey(a, b) != CallKey(w, x, y, z)
    ensures SendKey(p, q, r) != CallKey(w, x, y, z)
    ensures HandlerKey(a, b) != ErrorKey(e) && SendKey(p, q, r) != ErrorKey(e) && CallKey(w, x, y, z) != ErrorKey(e)
  {
    assert HandlerKey(a, b)[0] == 'h' && SendKey(p, q, r)[0] == 's';
    assert CallKey(w, x, y, z)[0] == 'c' && ErrorKey(e)[0] == 'e';
  }

  lemma ErrorNotPrimary(key: string)
    ensures !Primary(ErrorKey(key))
  {
    assert ErrorKey(key)[0] == 'e';
    forall a, b ensures ErrorKey(key) != HandlerKey(a, b) {
      assert HandlerKey(a, b)[0] == 'h';
    }
    forall a, b, c ensures ErrorKey(key) != SendKey(a, b, c) {
      assert SendKey(a, b, c)[0] == 's';
    }
    forall a, b, c, d ensures ErrorKey(key) != CallKey(a, b, c, d) {
      assert CallKey(a, b, c, d)[0] == 'c';
    }
  }

  /** The signal name that the workflow rebuilds from a case's key. */
  function SignalName(handlerKey: string): string
    requires |handlerKey| >= |"send:"|
  {
    "send:" + handlerKey[|"send:"|..]
  }

  /** Rebuilding the signal name gives back the key that the sender used. */
  lemma SignalNameOfSendKey(a: string, b: string, c: string)
    ensures |SendKey(a, b, c)| >= |"send:"| && SignalName(SendKey(a, b, c)) == SendKey(a, b, c)
  {
    var tail := a + ":" + b + ":" + c;
    assert SendKey(a, b, c) == "send:" + tail;
    assert ("send:" + tail)[|"send:"|..] == tail;
  }
}
