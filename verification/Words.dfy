/** Order of strings by code units, the order of JavaScript's `<` on strings. */
module Words {

  predicate Le(a: seq<int>, b: seq<int>) {
    a == [] || (b != [] && (a[0] < b[0] || (a[0] == b[0] && Le(a[1..], b[1..]))))
  }

  lemma {:induction false} LeTotal(a: seq<int>, b: seq<int>)
    ensures Le(a, b) || Le(b, a)
    ensures Le(a, b) && Le(b, a) ==> a == b
    decreases |a|
  {
    if a != [] && b != [] && a[0] == b[0] {
      LeTotal(a[1..], b[1..]);
      assert a == [a[0]] + a[1..] && b == [b[0]] + b[1..];
    }
  }

  lemma {:induction false} LeTransitive(a: seq<int>, b: seq<int>, c: seq<int>)
    requires Le(a, b) && Le(b, c)
    ensures Le(a, c)
    decreases |a|
  {
    if a != [] && a[0] == b[0] == c[0] { LeTransitive(a[1..], b[1..], c[1..]); }
  }

  lemma {:induction false} LeReflexive(a: seq<int>)
    ensures Le(a, a)
    decreases |a|
  {
    if a == [] {
    } else {
      LeReflexive(a[1..]);
    }
  }

  /** The first differing unit decides, the smaller one first; a prefix comes before what it starts. */
  lemma {:induction false} FirstDifferenceDecides(a: seq<int>, b: seq<int>, k: nat)
    requires k <= |a| && k <= |b| && a[..k] == b[..k] && (k < |a| && k < |b| ==> a[k] != b[k])
    requires k < |a| || k < |b|
    ensures Le(a, b) <==> k == |a| || (k < |b| && a[k] < b[k])
    decreases k
  {
    if k == 0 {
    } else {
      assert a[0] == a[..k][0] == b[..k][0] == b[0];
      assert a[1..][..k - 1] == a[..k][1..] == b[..k][1..] == b[1..][..k - 1];
      FirstDifferenceDecides(a[1..], b[1..], k - 1);
    }
  }

  /** The code units of a string (its characters stand for UTF-16 code units). */
  function Units(s: string): seq<int> { seq(|s|, i requires 0 <= i < |s| => s[i] as int) }

  predicate StringLe(a: string, b: string) { Le(Units(a), Units(b)) }

  lemma StringLeTotal(a: string, b: string)
    ensures StringLe(a, b) || StringLe(b, a)
    ensures StringLe(a, b) && StringLe(b, a) ==> a == b
  {
    LeTotal(Units(a), Units(b));
    if Units(a) == Units(b) {
      assert |a| == |Units(a)| == |Units(b)| == |b|;
      forall i | 0 <= i < |a| ensures a[i] == b[i] { assert Units(a)[i] == Units(b)[i]; }
    }
  }

  // ---- sorting --------------------------------------------------------------------------------

  ghost predicate Sorted(ws: seq<string>) { forall i, j :: 0 <= i < j < |ws| ==> StringLe(ws[i], ws[j]) }

  function Insert(w: string, ws: seq<string>): (r: seq<string>)
    ensures multiset(r) == multiset(ws) + multiset{w}
  {
    if ws == [] || StringLe(w, ws[0]) then assert multiset([w] + ws) == multiset{w} + multiset(ws); [w] + ws
    else
      assert ws == [ws[0]] + ws[1..];
      [ws[0]] + Insert(w, ws[1..])
  }

  /** JavaScript's default sort. */
  function Sort(ws: seq<string>): (r: seq<string>)
    ensures multiset(r) == multiset(ws)
  {
    if ws == [] then [] else assert ws == [ws[0]] + ws[1..]; Insert(ws[0], Sort(ws[1..]))
  }

  lemma {:induction false} InsertSorts(w: string, ws: seq<string>)
    requires Sorted(ws)
    ensures Sorted(Insert(w, ws))
    decreases |ws|
  {
    if ws == [] { return; }
    StringLeTotal(w, ws[0]);
    if StringLe(w, ws[0]) {
      forall j | 0 <= j < |ws| ensures StringLe(w, ws[j]) {
        if j > 0 { LeTransitive(Units(w), Units(ws[0]), Units(ws[j])); }
      }
    } else {
      InsertSorts(w, ws[1..]);
      forall x | x in Insert(w, ws[1..]) ensures StringLe(ws[0], x) {
        assert x in multiset(Insert(w, ws[1..]));
        if x != w {
          assert x in ws[1..];
          var j :| 0 <= j < |ws[1..]| && ws[1..][j] == x;
          assert ws[j + 1] == x;
        }
      }
    }
  }

  lemma {:induction false} SortSorts(ws: seq<string>)
    ensures Sorted(Sort(ws))
    decreases |ws|
  {
    if ws == [] {
    } else {
      SortSorts(ws[1..]);
      InsertSorts(ws[0], Sort(ws[1..]));
    }
  }

  ghost predicate NoRepeat(ws: seq<string>) { forall i, j :: 0 <= i < j < |ws| ==> ws[i] != ws[j] }

  /** Sorting keeps the elements, each as often as before. */
  lemma SortKeeps(ws: seq<string>)
    ensures forall w :: w in Sort(ws) <==> w in ws
    ensures NoRepeat(ws) ==> NoRepeat(Sort(ws))
  {
    SameElements(ws, Sort(ws));
  }

  lemma SameElements(a: seq<string>, b: seq<string>)
    requires multiset(a) == multiset(b)
    ensures forall w :: w in a <==> w in b
    ensures NoRepeat(a) ==> NoRepeat(b)
  {
    forall w ensures w in a <==> w in b { assert w in a <==> w in multiset(a); }
    if NoRepeat(a) {
      OnceEach(a);
      forall i, j | 0 <= i < j < |b| ensures b[i] != b[j] {
        if b[i] == b[j] { TwiceIfEqual(b, i, j); }
      }
    }
  }

  lemma {:induction false} OnceEach(ws: seq<string>)
    requires NoRepeat(ws)
    ensures forall w :: multiset(ws)[w] <= 1
    decreases |ws|
  {
    if ws == [] {
    } else {
      OnceEach(ws[1..]);
      assert ws == [ws[0]] + ws[1..];
      assert ws[0] !in multiset(ws[1..]);
    }
  }

  lemma TwiceIfEqual(ws: seq<string>, i: nat, j: nat)
    requires i < j < |ws| && ws[i] == ws[j]
    ensures multiset(ws)[ws[i]] >= 2
  {
    assert ws == ws[..j] + ws[j..];
    assert ws[..j][i] == ws[i] && ws[j..][0] == ws[j];
    assert ws[i] in multiset(ws[..j]) && ws[j] in multiset(ws[j..]);
  }
}
