/**
 * `djutils/db/utils.py`: `get_queryset_position` on databases other than
 * PostgreSQL, a scan of the queryset's primary keys.
 */
module DbUtils {
  import opened Wrappers

  /** A model instance as the scan sees it. */
  datatype ModelObject = ModelObject(pk: int)

  /**
   * The primary keys in queryset order. Both branches of the source compute
   * this list, `values_list('pk', flat=True)` for a filterable QuerySet and
   * `map(lambda o: o.pk, qs)` otherwise, so which branch runs is not modelled.
   */
  function PkList(qs: seq<ModelObject>): (r: seq<int>)
    ensures |r| == |qs| && forall i :: 0 <= i < |qs| ==> r[i] == qs[i].pk
    ensures forall o :: o in qs ==> o.pk in r
  {
    seq(|qs|, i requires 0 <= i < |qs| => qs[i].pk)
  }

  /** The first index holding `x`, if any. */
  function FirstIndex(s: seq<int>, x: int): (r: Option<nat>)
    ensures r.None? <==> x !in s
    ensures r.Some? ==> r.value < |s| && s[r.value] == x && x !in s[..r.value]
  {
    if s == [] then None
    else if s[0] == x then Some(0)
    else match FirstIndex(s[1..], x)
      case None => None
      case Some(i) =>
        assert s[..i + 1] == [s[0]] + s[1..][..i];
        Some(i + 1)
  }

  /** An index holding `x` with no `x` before it is the first index. */
  lemma {:induction false} FirstIndexAt(s: seq<int>, x: int, i: nat)
    requires i < |s| && s[i] == x && x !in s[..i]
    ensures FirstIndex(s, x) == Some(i)
  {
    if i > 0 {
      assert s[0] == s[..i][0];
      assert s[1..][..i - 1] == s[..i][1..];
      FirstIndexAt(s[1..], x, i - 1);
    }
  }

  /**
   * The 1-based position of `obj` in `qs`: `i + 1` for the first `i` whose
   * primary key is `obj.pk`, and `None` when there is none.
   */
  method GetQuerysetPosition(qs: seq<ModelObject>, obj: ModelObject) returns (r: Option<nat>)
    ensures r.None? <==> obj.pk !in PkList(qs)
    ensures r.Some? ==> 1 <= r.value <= |qs| && qs[r.value - 1].pk == obj.pk
    ensures r.Some? ==> forall j :: 0 <= j < r.value - 1 ==> qs[j].pk != obj.pk
    ensures r == (match FirstIndex(PkList(qs), obj.pk) case None => None case Some(i) => Some(i + 1))
  {
    var pkList := PkList(qs);
    var i := 0;
    while i < |pkList|
      invariant 0 <= i <= |pkList| && obj.pk !in pkList[..i]
    {
      if obj.pk == pkList[i] {
        FirstIndexAt(pkList, obj.pk, i);
        return Some(i + 1);
      }
      assert pkList[..i + 1] == pkList[..i] + [pkList[i]];
      i := i + 1;
    }
    assert pkList[..i] == pkList;
    r := None;
  }
}
