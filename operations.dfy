/** Arithmetic on similarly-structured nested dictionaries
    (tr55/operations.py).

    A Python value met by the walk is a number, a dictionary with string
    keys, or `None`; `Tree` models exactly these three.  Python's `None` is
    `Null`, and it is also what the walk yields when no branch matches, so
    the result type is `Tree` itself: such a `None` nests inside the
    dictionaries built further up. */
module Operations {

  datatype Tree = Null | Num(x: real) | Dict(children: map<string, Tree>)

  /** `m.get(key)`: the child under `key`, or `None`. */
  function Get(m: map<string, Tree>, key: string): Tree
  {
    if key in m then m[key] else Null
  }

  /** Nesting depth, the termination measure of the walk. */
  ghost function Height(t: Tree): nat
    decreases t, 1
  {
    if t.Dict? then 1 + MaxHeight(t, t.children.Keys) else 0
  }

  /** The largest height among the children of `t` under keys `ks`. */
  ghost function MaxHeight(t: Tree, ks: set<string>): (h: nat)
    requires t.Dict? && ks <= t.children.Keys
    ensures forall k :: k in ks ==> Height(t.children[k]) <= h
    decreases t, 0, ks
  {
    if ks == {} then 0 else
      var k :| k in ks;
      var here := Height(t.children[k]);
      var rest := MaxHeight(t, ks - {k});
      if here < rest then rest else here
  }

  /** Every child, present or missing, is lower than its dictionary. */
  lemma ChildLower(m: map<string, Tree>, key: string)
    ensures Height(Get(m, key)) < Height(Dict(m))
  {
  }

  /** The pair of children under one key is lower than the pair of
      dictionaries. */
  lemma ChildrenLower(l: map<string, Tree>, r: map<string, Tree>, key: string)
    ensures Height(Get(l, key)) + Height(Get(r, key)) < Height(Dict(l)) + Height(Dict(r))
  {
    ChildLower(l, key);
    ChildLower(r, key);
  }

  /** is_number: the one kind of value `dict_plus` adds. */
  function IsNumber(t: Tree): (b: bool)
    ensures b <==> exists x: real :: t == Num(x)
  {
    assert t.Num? ==> t == Num(t.x);
    t.Num?
  }

  /** tandem_walk, as a specification: the six branches in the order the
      source tests them, and `None` when none matches. */
  function Walk(op: (Tree, Tree) -> Tree, neutral: Tree, pred: Tree -> bool, left: Tree, right: Tree): (w: Tree)
    ensures !pred(left) && left.Dict? && right == Null ==> w == left
    ensures !pred(right) && left == Null && right.Dict? ==> w == right
    ensures !pred(left) && !pred(right) && left.Dict? && right.Dict? ==>
              w.Dict? && w.children.Keys == left.children.Keys + right.children.Keys
    ensures (!pred(left) && !pred(right) && !(left.Dict? && (right == Null || right.Dict?)) &&
             !(left == Null && right.Dict?)) ==> w == Null
    decreases Height(left) + Height(right)
  {
    if pred(left) && pred(right) then op(left, right)
    else if pred(left) && right == Null then op(left, neutral)
    else if left == Null && pred(right) then op(neutral, right)
    else if left.Dict? && right == Null then left
    else if left == Null && right.Dict? then right
    else if left.Dict? && right.Dict? then
      Dict(map key | key in left.children.Keys + right.children.Keys ::
             ChildLower(left.children, key); ChildLower(right.children, key);
             Walk(op, neutral, pred, Get(left.children, key), Get(right.children, key)))
    else Null
  }

  /** tandem_walk, as the source runs it: the dictionary branch inserts one
      key of the union at a time into a fresh dictionary. */
  method TandemWalk(op: (Tree, Tree) -> Tree, neutral: Tree, pred: Tree -> bool, left: Tree, right: Tree)
    returns (r: Tree)
    ensures r == Walk(op, neutral, pred, left, right)
    decreases Height(left) + Height(right), 1
  {
    if pred(left) && pred(right) {
      r := op(left, right);
    } else if pred(left) && right == Null {
      r := op(left, neutral);
    } else if left == Null && pred(right) {
      r := op(neutral, right);
    } else if left.Dict? && right == Null {
      r := left;
    } else if left == Null && right.Dict? {
      r := right;
    } else if left.Dict? && right.Dict? {
      var merged := MergeChildren(op, neutral, pred, left.children, right.children);
      r := Dict(merged);
    } else {
      r := Null;
    }
  }

  /** The loop of tandem_walk's dictionary branch: every key of the union
      is mapped to the walk of its two children. */
  method MergeChildren(op: (Tree, Tree) -> Tree, neutral: Tree, pred: Tree -> bool,
                       l: map<string, Tree>, r: map<string, Tree>)
    returns (retval: map<string, Tree>)
    ensures retval.Keys == l.Keys + r.Keys
    ensures forall key :: key in retval ==>
              retval[key] == Walk(op, neutral, pred, Get(l, key), Get(r, key))
    decreases Height(Dict(l)) + Height(Dict(r)), 0
  {
    retval := map[];
    var union := l.Keys + r.Keys;
    var todo := union;
    while todo != {}
      invariant todo <= union
      invariant forall key :: key in retval <==> key in union && key !in todo
      invariant forall key :: key in retval ==>
                  retval[key] == Walk(op, neutral, pred, Get(l, key), Get(r, key))
      decreases todo
    {
      var key :| key in todo;
      var leftVal := Get(l, key);
      var rightVal := Get(r, key);
      ChildrenLower(l, r, key);
      var v := TandemWalk(op, neutral, pred, leftVal, rightVal);
      retval := retval[key := v];
      todo := todo - {key};
    }
  }

  /** The `plus` that dict_plus hands to the walk.  The walk applies it only
      to numbers; any other pair gives `None`. */
  function Add(x: Tree, y: Tree): Tree
  {
    if x.Num? && y.Num? then Num(x.x + y.x) else Null
  }

  /** dict_plus, as a specification: the walk with `plus`, neutral 0 and
      is_number. */
  function DictSum(left: Tree, right: Tree): Tree
  {
    Walk(Add, Num(0.0), IsNumber, left, right)
  }

  /** dict_plus. */
  method DictPlus(left: Tree, right: Tree) returns (r: Tree)
    ensures r == DictSum(left, right)
  {
    r := TandemWalk(Add, Num(0.0), IsNumber, left, right);
  }

  /** Two numbers at the same position are added; a number facing `None`,
      on either side, is added to 0 and so kept. */
  lemma DictSumNumbers(a: real, b: real)
    ensures DictSum(Num(a), Num(b)) == Num(a + b)
    ensures DictSum(Num(a), Null) == Num(a)
    ensures DictSum(Null, Num(b)) == Num(b)
  {
  }

  /** A dictionary facing `None`, on either side, comes back unchanged. */
  lemma DictSumDictNull(m: map<string, Tree>)
    ensures DictSum(Dict(m), Null) == Dict(m)
    ensures DictSum(Null, Dict(m)) == Dict(m)
  {
  }

  /** Two dictionaries give a dictionary over the union of their keys, each
      entry the sum of the two children, a missing child counting as `None`. */
  lemma DictSumDicts(l: map<string, Tree>, r: map<string, Tree>)
    ensures DictSum(Dict(l), Dict(r)).Dict?
    ensures DictSum(Dict(l), Dict(r)).children.Keys == l.Keys + r.Keys
    ensures forall key :: key in l.Keys + r.Keys ==>
              DictSum(Dict(l), Dict(r)).children[key] == DictSum(Get(l, key), Get(r, key))
  {
  }

  /** Mismatched shapes fall through every branch: a number facing a
      dictionary, and `None` facing `None`, give `None`. */
  lemma DictSumMismatch(a: real, m: map<string, Tree>)
    ensures DictSum(Num(a), Dict(m)) == Null
    ensures DictSum(Dict(m), Num(a)) == Null
    ensures DictSum(Null, Null) == Null
  {
  }

  /** Every branch of the walk is symmetric, so a commutative operation
      gives a commutative walk. */
  lemma {:induction false} WalkCommutes(op: (Tree, Tree) -> Tree, neutral: Tree, pred: Tree -> bool, left: Tree, right: Tree)
    requires forall x, y :: op(x, y) == op(y, x)
    ensures Walk(op, neutral, pred, left, right) == Walk(op, neutral, pred, right, left)
    decreases Height(left) + Height(right)
  {
    if !(pred(left) && pred(right)) && !(pred(left) && right == Null) && !(left == Null && pred(right))
       && left.Dict? && right.Dict?
    {
      var union := left.children.Keys + right.children.Keys;
      forall key | key in union
        ensures Walk(op, neutral, pred, Get(left.children, key), Get(right.children, key))
             == Walk(op, neutral, pred, Get(right.children, key), Get(left.children, key))
      {
        ChildLower(left.children, key);
        ChildLower(right.children, key);
        WalkCommutes(op, neutral, pred, Get(left.children, key), Get(right.children, key));
      }
      assert union == right.children.Keys + left.children.Keys;
    }
  }

  /** dict_plus is commutative. */
  lemma DictSumCommutes(left: Tree, right: Tree)
    ensures DictSum(left, right) == DictSum(right, left)
  {
    WalkCommutes(Add, Num(0.0), IsNumber, left, right);
  }

  /** `t` with every number multiplied by `k`; the shape is kept. */
  function Scale(k: real, t: Tree): (s: Tree)
    ensures s.Dict? <==> t.Dict?
    ensures s.Dict? ==> s.children.Keys == t.children.Keys
    decreases Height(t)
  {
    match t
    case Null => Null
    case Num(x) => Num(k * x)
    case Dict(m) => Dict(map key | key in m :: ChildLower(m, key); Scale(k, m[key]))
  }

  /** Adding a tree to itself doubles every number and keeps the shape. */
  lemma {:induction false} DictSumSelf(t: Tree)
    ensures DictSum(t, t) == Scale(2.0, t)
    decreases Height(t)
  {
    if t.Dict? {
      var m := t.children;
      forall key | key in m
        ensures DictSum(Get(m, key), Get(m, key)) == Scale(2.0, m[key])
      {
        ChildLower(m, key);
        DictSumSelf(m[key]);
      }
      assert m.Keys + m.Keys == m.Keys;
    }
  }

  /** Two one-key dictionaries with the same key sum to the one-key
      dictionary of the children's sum. */
  lemma DictSumSingleKey(key: string, a: Tree, b: Tree)
    ensures DictSum(Dict(map[key := a]), Dict(map[key := b])) == Dict(map[key := DictSum(a, b)])
  {
    DictSumDicts(map[key := a], map[key := b]);
  }

  /** test_plus_1, innermost level: equal keys, leaves added pairwise. */
  lemma DictPlusExample1Leaves()
    ensures DictSum(Dict(map["a" := Num(1.0), "b" := Num(3.0), "c" := Num(13.0)]),
                    Dict(map["a" := Num(1.0), "b" := Num(5.0), "c" := Num(21.0)]))
         == Dict(map["a" := Num(2.0), "b" := Num(8.0), "c" := Num(34.0)])
  {
    var l := map["a" := Num(1.0), "b" := Num(3.0), "c" := Num(13.0)];
    var r := map["a" := Num(1.0), "b" := Num(5.0), "c" := Num(21.0)];
    DictSumDicts(l, r);
    DictSumNumbers(1.0, 1.0);
    DictSumNumbers(3.0, 5.0);
    DictSumNumbers(13.0, 21.0);
  }

  /** test_plus_1, middle level: the summed subtree plus the keys "n" and
      "m" each present on one side only. */
  lemma DictPlusExample1Middle(zl: Tree, zr: Tree)
    requires zl.Dict? && zr.Dict?
    ensures DictSum(Dict(map["z" := zl, "n" := Num(144.0)]), Dict(map["z" := zr, "m" := Num(610.0)]))
         == Dict(map["z" := DictSum(zl, zr), "n" := Num(144.0), "m" := Num(610.0)])
  {
    var l := map["z" := zl, "n" := Num(144.0)];
    var r := map["z" := zr, "m" := Num(610.0)];
    DictSumDicts(l, r);
    DictSumNumbers(144.0, 610.0);
    assert Get(l, "m") == Null && Get(r, "n") == Null;
  }

  /** test_plus_1: equally shaped trees add leaf by leaf, and keys present on
      one side only are kept. */
  lemma DictPlusExample1()
    ensures DictSum(
              Dict(map["x" := Dict(map["y" := Dict(map["z" := Dict(map["a" := Num(1.0), "b" := Num(3.0), "c" := Num(13.0)]), "n" := Num(144.0)])])]),
              Dict(map["x" := Dict(map["y" := Dict(map["z" := Dict(map["a" := Num(1.0), "b" := Num(5.0), "c" := Num(21.0)]), "m" := Num(610.0)])])]))
         == Dict(map["x" := Dict(map["y" := Dict(map["z" := Dict(map["a" := Num(2.0), "b" := Num(8.0), "c" := Num(34.0)]), "n" := Num(144.0), "m" := Num(610.0)])])])
  {
    var zl := Dict(map["a" := Num(1.0), "b" := Num(3.0), "c" := Num(13.0)]);
    var zr := Dict(map["a" := Num(1.0), "b" := Num(5.0), "c" := Num(21.0)]);
    DictPlusExample1Leaves();
    DictPlusExample1Middle(zl, zr);
    var yl := Dict(map["z" := zl, "n" := Num(144.0)]);
    var yr := Dict(map["z" := zr, "m" := Num(610.0)]);
    DictSumSingleKey("y", yl, yr);
    DictSumSingleKey("x", Dict(map["y" := yl]), Dict(map["y" := yr]));
  }

  /** test_plus_3: a subtree facing `None` is kept whole, so adding
      {'x': {'y': None}} changes nothing. */
  lemma DictPlusExample3()
    ensures DictSum(
              Dict(map["x" := Dict(map["y" := Dict(map["z" := Dict(map["a" := Num(2.0), "c" := Num(13.0)]), "n" := Num(144.0)])])]),
              Dict(map["x" := Dict(map["y" := Null])]))
         == Dict(map["x" := Dict(map["y" := Dict(map["z" := Dict(map["a" := Num(2.0), "c" := Num(13.0)]), "n" := Num(144.0)])])])
  {
    var y := Dict(map["z" := Dict(map["a" := Num(2.0), "c" := Num(13.0)]), "n" := Num(144.0)]);
    assert DictSum(y, Null) == y;
    assert DictSum(Dict(map["y" := y]), Dict(map["y" := Null])) == Dict(map["y" := y]);
  }
}
