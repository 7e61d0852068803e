/** The word and character error metric (src/fast_sub/benchmark/text_metrics.py): the rolling-row
    edit distance is the least cost of any script that turns one list into the other. */
module EditDistance {
  import opened Extrema
  import opened Wrappers

  // ---------------------------------------------------------------- edit scripts

  datatype Edit<T> = Keep | Substitute(item: T) | Delete | Insert(item: T)

  /** What a script makes of `a`; none when it does not fit. */
  function Apply<T>(script: seq<Edit<T>>, a: seq<T>): Option<seq<T>> {
    if script == [] then (if a == [] then Some([]) else None)
    else match script[0]
      case Insert(x) => Cons(x, Apply(script[1..], a))
      case Delete => if a == [] then None else Apply(script[1..], a[1..])
      case Keep => if a == [] then None else Cons(a[0], Apply(script[1..], a[1..]))
      case Substitute(x) => if a == [] then None else Cons(x, Apply(script[1..], a[1..]))
  }

  function Cons<T>(x: T, rest: Option<seq<T>>): Option<seq<T>> {
    match rest
    case None => None
    case Some(b) => Some([x] + b)
  }

  function Cost<T>(script: seq<Edit<T>>): nat {
    if script == [] then 0 else (if script[0].Keep? then 0 else 1) + Cost(script[1..])
  }

  // ---------------------------------------------------------------- the recurrence

  /** The distance of the first `i` items of `a` from the first `j` of `b`. */
  function Dist<T(==)>(a: seq<T>, b: seq<T>, i: nat, j: nat): nat
    requires i <= |a| && j <= |b|
  {
    if i == 0 then j
    else if j == 0 then i
    else MinInt(MinInt(Dist(a, b, i, j - 1) + 1, Dist(a, b, i - 1, j) + 1),
             Dist(a, b, i - 1, j - 1) + if a[i - 1] == b[j - 1] then 0 else 1)
  }

  function Distance<T(==)>(a: seq<T>, b: seq<T>): nat {
    Dist(a, b, |a|, |b|)
  }

  lemma DistStep<T>(a: seq<T>, b: seq<T>, i: nat, j: nat)
    requires i <= |a| && j <= |b|
    ensures Dist(a, b, i, j)
         == if i == 0 || j == 0 then i + j
            else MinInt(MinInt(Dist(a, b, i, j - 1) + 1, Dist(a, b, i - 1, j) + 1),
                     Dist(a, b, i - 1, j - 1) + if a[i - 1] == b[j - 1] then 0 else 1)
  {
  }

  /** A row of the table, as far as column `n`. */
  ghost predicate Row<T>(row: seq<nat>, a: seq<T>, b: seq<T>, i: nat, n: nat)
    requires i <= |a| && n <= |b| + 1
  {
    |row| == n && forall j | 0 <= j < n :: row[j] == Dist(a, b, i, j)
  }

  /** edit_distance, keeping two rows of the table. */
  method Compute<T(==)>(reference: seq<T>, prediction: seq<T>) returns (d: nat)
    ensures d == Distance(reference, prediction)
  {
    var previous: seq<nat> := seq(|prediction| + 1, j => j);
    for i := 1 to |reference| + 1
      invariant Row(previous, reference, prediction, i - 1, |prediction| + 1)
    {
      var current: seq<nat> := [i];
      for j := 1 to |prediction| + 1
        invariant Row(current, reference, prediction, i, j)
      {
        var cost := if reference[i - 1] == prediction[j - 1] then 0 else 1;
        var least := MinInt(MinInt(current[j - 1] + 1, previous[j] + 1), previous[j - 1] + cost);
        assert least == Dist(reference, prediction, i, j);
        current := current + [least];
      }
      previous := current;
    }
    d := previous[|previous| - 1];
  }

  /** error_rate before rounding; none for an empty reference. */
  method ErrorRate<T(==)>(reference: seq<T>, prediction: seq<T>) returns (rate: Option<real>)
    ensures rate == None <==> reference == []
    ensures rate.Some? ==> rate.value * (|reference| as real) == Distance(reference, prediction) as real
  {
    if reference == [] {
      return None;
    }
    var d := Compute(reference, prediction);
    rate := Some(d as real / |reference| as real);
  }

  // ---------------------------------------------------------------- least cost

  lemma {:induction false} ApplyConcat<T>(s: seq<Edit<T>>, t: seq<Edit<T>>, a: seq<T>, b: seq<T>)
    requires Apply(s, a).Some? && Apply(t, b).Some?
    ensures Apply(s + t, a + b) == Some(Apply(s, a).value + Apply(t, b).value)
    ensures Cost(s + t) == Cost(s) + Cost(t)
  {
    if s == [] {
      assert s + t == t && a + b == b;
      assert [] + Apply(t, b).value == Apply(t, b).value;
    } else {
      assert (s + t)[1..] == s[1..] + t;
      var rest := if s[0].Insert? then a else a[1..];
      assert !s[0].Insert? ==> (a + b)[1..] == rest + b;
      ApplyConcat(s[1..], t, rest, b);
      var made := Apply(s[1..], rest).value;
      if !s[0].Delete? {
        var x := if s[0].Keep? then a[0] else s[0].item;
        assert [x] + (made + Apply(t, b).value) == ([x] + made) + Apply(t, b).value;
      }
    }
  }

  lemma Extend<T>(s: seq<Edit<T>>, last: Edit<T>, a: seq<T>, tail: seq<T>)
    requires Apply(s, a).Some? && Apply([last], tail).Some?
    ensures Apply(s + [last], a + tail) == Some(Apply(s, a).value + Apply([last], tail).value)
    ensures Cost(s + [last]) == Cost(s) + if last.Keep? then 0 else 1
  {
    ApplyConcat(s, [last], a, tail);
    assert [last][1..] == [];
  }

  /** One edit at the end of the prefixes: what it costs, and that it makes the one item. */
  lemma OneEdit<T>(a: seq<T>, b: seq<T>)
    ensures a == [] && |b| == 1 ==> Apply([Insert(b[0])], a) == Some(b)
    ensures |a| == 1 && b == [] ==> Apply([Delete], a) == Some(b)
    ensures |a| == 1 && |b| == 1 ==> Apply([if a[0] == b[0] then Keep else Substitute(b[0])], a) == Some(b)
  {
    NoEdits<T>();
    if |a| == 1 { assert a[1..] == []; }
    if |b| == 1 {
      assert [b[0]] + [] == b;
      assert [Insert(b[0])][1..] == [] && [Substitute(b[0])][1..] == [];
    }
    assert [Edit<T>.Keep][1..] == [] && [Edit<T>.Delete][1..] == [];
  }

  lemma NoEdits<T>()
    ensures Apply<T>([], []) == Some([])
  {
  }

  /** The last edit of a cheapest script: what it consumes, what it makes, what it costs. */
  lemma LastEdit<T>(a: seq<T>, b: seq<T>, i: nat, j: nat) returns (last: Edit<T>, i': nat, j': nat)
    requires i <= |a| && j <= |b| && i + j > 0
    ensures i' <= i && j' <= j && i' + j' < i + j
    ensures Dist(a, b, i, j) == Dist(a, b, i', j') + if last.Keep? then 0 else 1
    ensures Apply([last], a[i'..i]) == Some(b[j'..j])
  {
    hide Dist, Apply;
    DistStep(a, b, i, j);
    if i == 0 || (j > 0 && Dist(a, b, i, j) == Dist(a, b, i, j - 1) + 1) {
      last, i', j' := Insert(b[j - 1]), i, j - 1;
    } else if j == 0 || Dist(a, b, i, j) == Dist(a, b, i - 1, j) + 1 {
      last, i', j' := Delete, i - 1, j;
    } else {
      last, i', j' := if a[i - 1] == b[j - 1] then Keep else Substitute(b[j - 1]), i - 1, j - 1;
    }
    DistStep(a, b, i', j');
    OneEdit(a[i'..i], b[j'..j]);
  }

  /** Some script reaches the distance. */
  lemma {:induction false} Witness<T>(a: seq<T>, b: seq<T>, i: nat, j: nat) returns (s: seq<Edit<T>>)
    requires i <= |a| && j <= |b|
    ensures Apply(s, a[..i]) == Some(b[..j]) && Cost(s) == Dist(a, b, i, j)
    decreases i + j
  {
    hide Dist;
    DistStep(a, b, i, j);
    if i == 0 && j == 0 {
      s := [];
    } else {
      var last, i', j' := LastEdit(a, b, i, j);
      var rest := Witness(a, b, i', j');
      s := rest + [last];
      Extend(rest, last, a[..i'], a[i'..i]);
      assert a[..i] == a[..i'] + a[i'..i] && b[..j] == b[..j'] + b[j'..j];
    }
  }

  /** The first edit of a script: what is left of both lists behind it. */
  lemma FirstEdit<T>(s: seq<Edit<T>>, a: seq<T>, b: seq<T>, i: nat, j: nat) returns (i': nat, j': nat)
    requires i <= |a| && j <= |b| && s != [] && Apply(s, a[i..]) == Some(b[j..])
    ensures i <= i' <= |a| && j <= j' <= |b| && Apply(s[1..], a[i'..]) == Some(b[j'..])
    ensures i' == (if s[0].Insert? then i else i + 1) && j' == (if s[0].Delete? then j else j + 1)
    ensures s[0].Keep? ==> a[i] == b[j]
  {
    i', j' := if s[0].Insert? then i else i + 1, if s[0].Delete? then j else j + 1;
    assert !s[0].Insert? ==> a[i..] != [] && a[i..][1..] == a[i'..] && a[i..][0] == a[i];
    var made := Apply(s[1..], a[i'..]);
    if !s[0].Delete? {
      assert b[j..][1..] == made.value && b[j..][1..] == b[j'..];
      assert b[j..][0] == b[j];
    }
  }

  /** No script is cheaper. */
  lemma {:induction false} LowerBound<T>(s: seq<Edit<T>>, a: seq<T>, b: seq<T>, i: nat, j: nat)
    requires i <= |a| && j <= |b| && Apply(s, a[i..]) == Some(b[j..])
    ensures Distance(a, b) <= Dist(a, b, i, j) + Cost(s)
    decreases s
  {
    hide Dist;
    if s == [] {
      assert |a[i..]| == 0 && |b[j..]| == 0;
    } else {
      var i', j' := FirstEdit(s, a, b, i, j);
      hide Apply;
      LowerBound(s[1..], a, b, i', j');
      DistStep(a, b, i, j);
      DistStep(a, b, i', j');
    }
  }

  /** The distance is the least cost of all scripts that turn `a` into `b`. */
  lemma DistanceIsLeastCost<T>(a: seq<T>, b: seq<T>)
    ensures exists s :: Apply(s, a) == Some(b) && Cost(s) == Distance(a, b)
    ensures forall s | Apply(s, a) == Some(b) :: Distance(a, b) <= Cost(s)
  {
    assert a[..|a|] == a && b[..|b|] == b && a[0..] == a && b[0..] == b;
    var w := Witness(a, b, |a|, |b|);
    forall s | Apply(s, a) == Some(b) ensures Distance(a, b) <= Cost(s) {
      LowerBound(s, a, b, 0, 0);
    }
  }

  // ---------------------------------------------------------------- a metric

  lemma {:induction false} DistSymmetric<T>(a: seq<T>, b: seq<T>, i: nat, j: nat)
    requires i <= |a| && j <= |b|
    ensures Dist(a, b, i, j) == Dist(b, a, j, i)
  {
    hide Dist;
    DistStep(a, b, i, j);
    DistStep(b, a, j, i);
    if i > 0 && j > 0 {
      DistSymmetric(a, b, i, j - 1);
      DistSymmetric(a, b, i - 1, j);
      DistSymmetric(a, b, i - 1, j - 1);
    }
  }

  lemma Symmetric<T>(a: seq<T>, b: seq<T>)
    ensures Distance(a, b) == Distance(b, a)
  {
    DistSymmetric(a, b, |a|, |b|);
  }

  lemma {:induction false} DistBounds<T>(a: seq<T>, b: seq<T>, i: nat, j: nat)
    requires i <= |a| && j <= |b|
    ensures i - j <= Dist(a, b, i, j) && j - i <= Dist(a, b, i, j)
    ensures Dist(a, b, i, j) <= if i <= j then j else i
  {
    hide Dist;
    DistStep(a, b, i, j);
    if i > 0 && j > 0 {
      DistBounds(a, b, i, j - 1);
      DistBounds(a, b, i - 1, j);
      DistBounds(a, b, i - 1, j - 1);
    }
  }

  lemma Bounds<T>(a: seq<T>, b: seq<T>)
    ensures |a| - |b| <= Distance(a, b) && |b| - |a| <= Distance(a, b)
    ensures Distance(a, b) <= if |a| <= |b| then |b| else |a|
  {
    DistBounds(a, b, |a|, |b|);
  }

  lemma {:induction false} DistZero<T>(a: seq<T>, b: seq<T>, i: nat, j: nat)
    requires i <= |a| && j <= |b|
    ensures Dist(a, b, i, j) == 0 <==> a[..i] == b[..j]
  {
    hide Dist;
    DistStep(a, b, i, j);
    DistBounds(a, b, i, j);
    if i == j && i > 0 {
      DistBounds(a, b, i, j - 1);
      DistBounds(a, b, i - 1, j);
      DistZero(a, b, i - 1, j - 1);
      assert a[..i] == a[..i - 1] + [a[i - 1]] && b[..j] == b[..j - 1] + [b[j - 1]];
    } else if i == j {
      assert a[..i] == b[..j] == [];
    } else {
      assert |a[..i]| != |b[..j]|;
    }
  }

  lemma ZeroIffEqual<T>(a: seq<T>, b: seq<T>)
    ensures Distance(a, b) == 0 <==> a == b
  {
    DistZero(a, b, |a|, |b|);
    assert a[..|a|] == a && b[..|b|] == b;
  }

  /** Doing one script after another can be done in one script at no more cost. */
  lemma {:induction false} Compose<T>(s: seq<Edit<T>>, t: seq<Edit<T>>, a: seq<T>) returns (u: seq<Edit<T>>)
    requires Apply(s, a).Some? && Apply(t, Apply(s, a).value).Some?
    ensures Apply(u, a) == Apply(t, Apply(s, a).value) && Cost(u) <= Cost(s) + Cost(t)
    decreases |s| + |t|
  {
    if t != [] && t[0].Insert? {
      var rest := Compose(s, t[1..], a);
      u := [t[0]] + rest;
      assert u[1..] == rest;
    } else if s != [] && s[0].Delete? {
      var rest := Compose(s[1..], t, a[1..]);
      u := [s[0]] + rest;
      assert u[1..] == rest;
    } else if s == [] {
      u := [];
      assert t == [];
    } else {
      var b := Apply(s, a).value;
      var a' := if s[0].Insert? then a else a[1..];
      assert b[1..] == Apply(s[1..], a').value && t != [];
      var rest := Compose(s[1..], t[1..], a');
      if t[0].Delete? && s[0].Insert? {
        u := rest;
      } else {
        var first := if t[0].Keep? then s[0]
                     else if t[0].Delete? then Delete
                     else if s[0].Insert? then Insert(t[0].item) else t[0];
        u := [first] + rest;
        assert u[1..] == rest;
      }
    }
  }

  lemma Triangle<T>(a: seq<T>, b: seq<T>, c: seq<T>)
    ensures Distance(a, c) <= Distance(a, b) + Distance(b, c)
  {
    DistanceIsLeastCost(a, b);
    DistanceIsLeastCost(b, c);
    DistanceIsLeastCost(a, c);
    var s :| Apply(s, a) == Some(b) && Cost(s) == Distance(a, b);
    var t :| Apply(t, b) == Some(c) && Cost(t) == Distance(b, c);
    var u := Compose(s, t, a);
  }
}
