/**
 * Comparison of values. `==` is structural equality of the datum, and `<` is
 * a concrete ordering: first by the variant's position in the `Type` enum,
 * then within a variant (false before true, numbers by value, strings, arrays
 * and member vectors lexicographically, a member by key and then by value).
 * The four derived operators are defined from them exactly as the header
 * defines them, and the lemmas below prove what the derivations promise.
 */
module Compare {
  import opened JsonValue

  /** The position of a value's tag in the `Type` enum. */
  function Rank(j: Json): nat
  {
    match TypeOf(j)
    case NUL => 0
    case NUMBER => 1
    case BOOL => 2
    case STRING => 3
    case ARRAY => 4
    case OBJECT => 5
  }

  /** Lexicographic order on character strings, a proper prefix first. */
  predicate StringLess(x: string, y: string)
  {
    if |x| == 0 then |y| > 0
    else if |y| == 0 then false
    else x[0] < y[0] || (x[0] == y[0] && StringLess(x[1..], y[1..]))
  }

  /** `operator<` on values. */
  predicate Less(a: Json, b: Json)
    decreases a, 1
  {
    if Rank(a) != Rank(b) then Rank(a) < Rank(b)
    else match (a, b)
      case (Number(x), Number(y)) => x < y
      case (Bool(x), Bool(y)) => !x && y
      case (Str(x), Str(y)) => StringLess(x, y)
      case (Array(xs), Array(ys)) => ItemsLess(xs, ys)
      case (Object(ms), Object(ns)) => MembersLess(ms, ns)
      case _ => false
  }

  /** Lexicographic order on arrays of values. */
  predicate ItemsLess(xs: seq<Json>, ys: seq<Json>)
    decreases xs, 0
  {
    if |xs| == 0 then |ys| > 0
    else if |ys| == 0 then false
    else Less(xs[0], ys[0]) || (xs[0] == ys[0] && ItemsLess(xs[1..], ys[1..]))
  }

  /** A member is ordered by its key, then by its value. */
  predicate MemberLess(m: Member, n: Member)
    decreases m, 2
  {
    StringLess(m.key, n.key) || (m.key == n.key && Less(m.value, n.value))
  }

  /** Lexicographic order on member vectors. */
  predicate MembersLess(ms: seq<Member>, ns: seq<Member>)
    decreases ms, 0
  {
    if |ms| == 0 then |ns| > 0
    else if |ns| == 0 then false
    else MemberLess(ms[0], ns[0]) || (ms[0] == ns[0] && MembersLess(ms[1..], ns[1..]))
  }

  // The derived operators, each written as the header writes it.

  predicate NotEqual(a: Json, b: Json)       { !(a == b) }
  predicate LessOrEqual(a: Json, b: Json)    { !Less(b, a) }
  predicate Greater(a: Json, b: Json)        { Less(b, a) }
  predicate GreaterOrEqual(a: Json, b: Json) { !Less(a, b) }

  // Strings: `StringLess` is a strict total order.

  lemma {:induction false} StringLessAsymmetric(x: string, y: string)
    ensures StringLess(x, y) ==> !StringLess(y, x)
  {
    if |x| > 0 && |y| > 0 && x[0] == y[0] {
      StringLessAsymmetric(x[1..], y[1..]);
    }
  }

  lemma {:induction false} StringLessTrichotomy(x: string, y: string)
    ensures StringLess(x, y) || x == y || StringLess(y, x)
  {
    if |x| > 0 && |y| > 0 && x[0] == y[0] {
      StringLessTrichotomy(x[1..], y[1..]);
      if x[1..] == y[1..] {
        assert x == [x[0]] + x[1..] && y == [y[0]] + y[1..];
      }
    }
  }

  lemma {:induction false} StringLessTransitive(x: string, y: string, z: string)
    requires StringLess(x, y) && StringLess(y, z)
    ensures StringLess(x, z)
  {
    if |x| > 0 && x[0] == y[0] && y[0] == z[0] {
      StringLessTransitive(x[1..], y[1..], z[1..]);
    }
  }

  // Values: `Less` is asymmetric (hence irreflexive), total and transitive.

  lemma {:induction false} LessAsymmetric(a: Json, b: Json)
    ensures Less(a, b) ==> !Less(b, a)
    decreases a, 1
  {
    match (a, b)
    case (Str(x), Str(y)) => StringLessAsymmetric(x, y);
    case (Array(xs), Array(ys)) => ItemsLessAsymmetric(xs, ys);
    case (Object(ms), Object(ns)) => MembersLessAsymmetric(ms, ns);
    case _ =>
  }

  lemma {:induction false} ItemsLessAsymmetric(xs: seq<Json>, ys: seq<Json>)
    ensures ItemsLess(xs, ys) ==> !ItemsLess(ys, xs)
    decreases xs, 0
  {
    if |xs| > 0 && |ys| > 0 {
      LessAsymmetric(xs[0], ys[0]);
      LessAsymmetric(xs[0], xs[0]);
      ItemsLessAsymmetric(xs[1..], ys[1..]);
    }
  }

  lemma {:induction false} MemberLessAsymmetric(m: Member, n: Member)
    ensures MemberLess(m, n) ==> !MemberLess(n, m)
    decreases m, 2
  {
    StringLessAsymmetric(m.key, n.key);
    StringLessAsymmetric(m.key, m.key);
    LessAsymmetric(m.value, n.value);
  }

  lemma {:induction false} MembersLessAsymmetric(ms: seq<Member>, ns: seq<Member>)
    ensures MembersLess(ms, ns) ==> !MembersLess(ns, ms)
    decreases ms, 0
  {
    if |ms| > 0 && |ns| > 0 {
      MemberLessAsymmetric(ms[0], ns[0]);
      MemberLessAsymmetric(ms[0], ms[0]);
      MembersLessAsymmetric(ms[1..], ns[1..]);
    }
  }

  lemma {:induction false} LessTrichotomy(a: Json, b: Json)
    ensures Less(a, b) || a == b || Less(b, a)
    decreases a, 1
  {
    match (a, b)
    case (Str(x), Str(y)) => StringLessTrichotomy(x, y);
    case (Array(xs), Array(ys)) => ItemsLessTrichotomy(xs, ys);
    case (Object(ms), Object(ns)) => MembersLessTrichotomy(ms, ns);
    case _ =>
  }

  lemma {:induction false} ItemsLessTrichotomy(xs: seq<Json>, ys: seq<Json>)
    ensures ItemsLess(xs, ys) || xs == ys || ItemsLess(ys, xs)
    decreases xs, 0
  {
    if |xs| > 0 && |ys| > 0 {
      LessTrichotomy(xs[0], ys[0]);
      if xs[0] == ys[0] {
        ItemsLessTrichotomy(xs[1..], ys[1..]);
        if xs[1..] == ys[1..] {
          assert xs == [xs[0]] + xs[1..] && ys == [ys[0]] + ys[1..];
        }
      }
    }
  }

  lemma {:induction false} MemberLessTrichotomy(m: Member, n: Member)
    ensures MemberLess(m, n) || m == n || MemberLess(n, m)
    decreases m, 2
  {
    StringLessTrichotomy(m.key, n.key);
    LessTrichotomy(m.value, n.value);
  }

  lemma {:induction false} MembersLessTrichotomy(ms: seq<Member>, ns: seq<Member>)
    ensures MembersLess(ms, ns) || ms == ns || MembersLess(ns, ms)
    decreases ms, 0
  {
    if |ms| > 0 && |ns| > 0 {
      MemberLessTrichotomy(ms[0], ns[0]);
      if ms[0] == ns[0] {
        MembersLessTrichotomy(ms[1..], ns[1..]);
        if ms[1..] == ns[1..] {
          assert ms == [ms[0]] + ms[1..] && ns == [ns[0]] + ns[1..];
        }
      }
    }
  }

  lemma {:induction false} LessTransitive(a: Json, b: Json, c: Json)
    requires Less(a, b) && Less(b, c)
    ensures Less(a, c)
    decreases a, 1
  {
    if Rank(a) == Rank(b) == Rank(c) {
      match (a, b, c)
      case (Str(x), Str(y), Str(z)) => StringLessTransitive(x, y, z);
      case (Array(xs), Array(ys), Array(zs)) => ItemsLessTransitive(xs, ys, zs);
      case (Object(ms), Object(ns), Object(ps)) => MembersLessTransitive(ms, ns, ps);
      case _ =>
    }
  }

  lemma {:induction false} ItemsLessTransitive(xs: seq<Json>, ys: seq<Json>, zs: seq<Json>)
    requires ItemsLess(xs, ys) && ItemsLess(ys, zs)
    ensures ItemsLess(xs, zs)
    decreases xs, 0
  {
    if |xs| > 0 {
      if Less(xs[0], ys[0]) && Less(ys[0], zs[0]) {
        LessTransitive(xs[0], ys[0], zs[0]);
      } else if xs[0] == ys[0] && ys[0] == zs[0] {
        ItemsLessTransitive(xs[1..], ys[1..], zs[1..]);
      }
    }
  }

  lemma {:induction false} MemberLessTransitive(m: Member, n: Member, p: Member)
    requires MemberLess(m, n) && MemberLess(n, p)
    ensures MemberLess(m, p)
    decreases m, 2
  {
    if StringLess(m.key, n.key) && StringLess(n.key, p.key) {
      StringLessTransitive(m.key, n.key, p.key);
    } else if m.key == n.key && n.key == p.key {
      LessTransitive(m.value, n.value, p.value);
    }
  }

  lemma {:induction false} MembersLessTransitive(ms: seq<Member>, ns: seq<Member>, ps: seq<Member>)
    requires MembersLess(ms, ns) && MembersLess(ns, ps)
    ensures MembersLess(ms, ps)
    decreases ms, 0
  {
    if |ms| > 0 {
      if MemberLess(ms[0], ns[0]) && MemberLess(ns[0], ps[0]) {
        MemberLessTransitive(ms[0], ns[0], ps[0]);
      } else if ms[0] == ns[0] && ns[0] == ps[0] {
        MembersLessTransitive(ms[1..], ns[1..], ps[1..]);
      }
    }
  }

  /** `operator<` is a strict total order on values, with `==` as its equality. */
  lemma LessIsStrictTotalOrder(a: Json, b: Json, c: Json)
    ensures !Less(a, a)
    ensures Less(a, b) ==> !Less(b, a)
    ensures Less(a, b) && Less(b, c) ==> Less(a, c)
    ensures Less(a, b) || a == b || Less(b, a)
  {
    LessAsymmetric(a, a);
    LessAsymmetric(a, b);
    LessTrichotomy(a, b);
    if Less(a, b) && Less(b, c) {
      LessTransitive(a, b, c);
    }
  }

  /**
   * What the derived operators mean: `!=` is the negation of `==`, `<=` is
   * `<` or `==`, `>` is the converse of `<`, `>=` is `>` or `==`, and exactly
   * one of `<`, `==`, `>` holds.
   */
  lemma DerivedOperators(a: Json, b: Json)
    ensures NotEqual(a, b) <==> a != b
    ensures LessOrEqual(a, b) <==> Less(a, b) || a == b
    ensures Greater(a, b) <==> Less(b, a)
    ensures GreaterOrEqual(a, b) <==> Greater(a, b) || a == b
    ensures GreaterOrEqual(a, b) <==> LessOrEqual(b, a)
    ensures Less(a, b) || a == b || Greater(a, b)
    ensures Less(a, b) ==> a != b && !Greater(a, b)
    ensures Greater(a, b) ==> a != b
  {
    LessAsymmetric(a, a);
    LessAsymmetric(a, b);
    LessTrichotomy(a, b);
  }

  /** `<=` is a total order: reflexive, antisymmetric, transitive and total. */
  lemma LessOrEqualIsTotalOrder(a: Json, b: Json, c: Json)
    ensures LessOrEqual(a, a)
    ensures LessOrEqual(a, b) && LessOrEqual(b, a) ==> a == b
    ensures LessOrEqual(a, b) && LessOrEqual(b, c) ==> LessOrEqual(a, c)
    ensures LessOrEqual(a, b) || LessOrEqual(b, a)
  {
    LessAsymmetric(a, a);
    LessAsymmetric(a, b);
    LessTrichotomy(a, b);
    LessTrichotomy(b, c);
    if LessOrEqual(a, b) && LessOrEqual(b, c) {
      if Less(a, b) && Less(b, c) {
        LessTransitive(a, b, c);
      }
      LessAsymmetric(a, c);
    }
  }

  /**
   * The order between the empty instance of every variant follows the `Type`
   * enum, and within a variant numbers and strings compare by value.
   */
  lemma OrderExamples()
    ensures Less(Null, Number(0)) && Less(Number(0), Bool(false))
    ensures Less(Bool(false), Str("")) && Less(Str(""), Array([]))
    ensures Less(Array([]), Object([]))
    ensures Less(Bool(false), Bool(true))
    ensures Less(Number(1), Number(2)) && Less(Str("a"), Str("b"))
    ensures Less(Array([Number(1)]), Array([Number(1), Null]))
    ensures Less(Object([Member("a", Null), Member("b", Null)]),
                 Object([Member("b", Null), Member("a", Null)]))
  {
  }
}
