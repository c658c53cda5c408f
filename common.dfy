/** Shared value types: optional values, results, the service response envelope,
    HTTP status codes, and the row helpers every repository uses (first match,
    delete-where, update-where). */
module Common {

  type byte = x: int | 0 <= x < 256

  datatype Option<T> = None | Some(value: T) {
    function GetOr(default: T): T {
      match this
      case Some(v) => v
      case None => default
    }

    /** This value when present, `other` otherwise. */
    function OrElse(other: Option<T>): Option<T> {
      if this.Some? then this else other
    }
  }

  datatype Result<T, E> = Success(value: T) | Failure(error: E)

  /** JavaScript truthiness of an optional string: `undefined`, `null` and `""` are falsy. */
  predicate Truthy(s: Option<string>) {
    s.Some? && s.value != ""
  }

  // HTTP status codes used by the services.
  const OK := 200
  const CREATED := 201
  const BAD_REQUEST := 400
  const UNAUTHORIZED := 401
  const FORBIDDEN := 403
  const NOT_FOUND := 404
  const INTERNAL_SERVER_ERROR := 500

  /** The envelope every service returns: `ServiceResponse.success(...)` and
      `ServiceResponse.failure(...)`. */
  datatype ServiceResponse<T> = ServiceResponse(success: bool, message: string, responseObject: Option<T>, statusCode: int)

  function Succeed<T>(message: string, data: Option<T>, statusCode: int): ServiceResponse<T> {
    ServiceResponse(true, message, data, statusCode)
  }

  function Fail<T>(message: string, statusCode: int): ServiceResponse<T> {
    ServiceResponse(false, message, None, statusCode)
  }

  /** The index of the first row satisfying `p`, or `|rows|` when there is none. */
  function IndexWhere<T>(rows: seq<T>, p: T -> bool): (i: nat)
    ensures i <= |rows|
    ensures i < |rows| ==> p(rows[i])
    ensures forall j :: 0 <= j < i ==> !p(rows[j])
  {
    if |rows| == 0 then 0
    else if p(rows[0]) then 0
    else 1 + IndexWhere(rows[1..], p)
  }

  /** `findFirst({ where })`: the first row, in table order, that satisfies `p`. */
  function FirstWhere<T>(rows: seq<T>, p: T -> bool): (r: Option<T>)
    ensures r.Some? ==> r.value in rows && p(r.value)
    ensures r.None? <==> forall i :: 0 <= i < |rows| ==> !p(rows[i])
    ensures r.Some? ==> r.value == rows[IndexWhere(rows, p)]
  {
    var i := IndexWhere(rows, p);
    if i < |rows| then Some(rows[i]) else None
  }

  /** `delete(table).where(p)`: the rows that do not satisfy `p`, in their order (see
      `RemoveWhereConcat`). */
  function RemoveWhere<T>(rows: seq<T>, p: T -> bool): (r: seq<T>)
    ensures forall i :: 0 <= i < |r| ==> r[i] in rows && !p(r[i])
    ensures forall i :: 0 <= i < |rows| && !p(rows[i]) ==> rows[i] in r
    ensures |r| <= |rows|
    ensures (forall i :: 0 <= i < |rows| ==> !p(rows[i])) ==> r == rows
    ensures (exists i :: 0 <= i < |rows| && p(rows[i])) ==> |r| < |rows|
  {
    if |rows| == 0 then []
    else
      var rest := RemoveWhere(rows[1..], p);
      assert forall i :: 1 <= i < |rows| ==> rows[i] == rows[1..][i - 1];
      if p(rows[0]) then rest else [rows[0]] + rest
  }

  /** Deleting from a table split in two deletes from each part, in place: the rows
      that stay keep their order. */
  lemma {:induction false} RemoveWhereConcat<T>(a: seq<T>, b: seq<T>, p: T -> bool)
    ensures RemoveWhere(a + b, p) == RemoveWhere(a, p) + RemoveWhere(b, p)
  {
    if |a| > 0 {
      assert (a + b)[1..] == a[1..] + b;
      RemoveWhereConcat(a[1..], b, p);
    } else {
      assert a + b == b;
    }
  }

  /** `update(table).set(...).where(p)`: every row satisfying `p` is rewritten by `f`,
      the others and the order are kept. */
  function UpdateWhere<T>(rows: seq<T>, p: T -> bool, f: T -> T): (r: seq<T>)
    ensures |r| == |rows|
    ensures forall i :: 0 <= i < |rows| ==> r[i] == if p(rows[i]) then f(rows[i]) else rows[i]
  {
    seq(|rows|, i requires 0 <= i < |rows| => if p(rows[i]) then f(rows[i]) else rows[i])
  }

  /** After `UpdateWhere(rows, p, f)` with an `f` that keeps `p`, a lookup by `p` finds
      the rewritten form of the row it found before, and nothing when it found nothing. */
  lemma FirstWhereAfterUpdate<T>(rows: seq<T>, p: T -> bool, f: T -> T)
    requires forall x :: p(x) ==> p(f(x))
    ensures FirstWhere(UpdateWhere(rows, p, f), p) ==
            (match FirstWhere(rows, p) case None => None case Some(x) => Some(f(x)))
  {
  }

  /** A lookup by a predicate `q` that no rewritten row satisfies, and that `f` does not
      change, sees the same row before and after `UpdateWhere(rows, p, f)`. */
  lemma FirstWhereOtherAfterUpdate<T>(rows: seq<T>, p: T -> bool, f: T -> T, q: T -> bool)
    requires forall x :: q(x) ==> !p(x)
    requires forall x :: q(f(x)) == q(x)
    ensures FirstWhere(UpdateWhere(rows, p, f), q) == FirstWhere(rows, q)
  {
    var r := UpdateWhere(rows, p, f);
    assert forall k :: 0 <= k < |rows| ==> q(r[k]) == q(rows[k]);
  }
}
