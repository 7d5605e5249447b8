/**
 * The part of MongoDB's query language that bdapi/main.py uses, evaluated
 * over an in-memory sequence of documents that stands for a collection.
 * Comparison operators follow MongoDB's type bracketing: a bound compares
 * only with a field value of the same BSON type, so a string bound never
 * matches a date field. `$regex` is modelled as literal substring search,
 * the option `i` as ASCII case folding.
 */
module Mongo {
  import opened Wrappers
  import opened Strings
  import opened Seqs

  /** The BSON values the filters compare: strings, and dates as integer timestamps. */
  datatype Value = Str(s: string) | Date(t: int)

  /**
   * A `robot_event` document; `id` is the text of its ObjectId `_id`, and
   * `createdAt` is a BSON date, as the seed script stores it.
   */
  datatype Doc = Doc(id: string, robot: string, status: string, description: string, createdAt: int)

  /** A `bduser` document. */
  datatype BDUser = BDUser(username: string, password: string, robots: seq<string>)

  /** The condition a filter document puts on one field. */
  datatype Cond =
    | Equals(v: Value)                        // {"robot": "patsy"}
    | Regex(pattern: string, options: string) // {"$regex": pattern, "$options": options}
    | In(values: seq<string>)                 // {"$in": [...]}
    | Range(ops: map<string, Value>)          // {"$gte": a, "$lt": b}

  /** A filter document: field name to condition. */
  type Query = map<string, Cond>

  /** The value of a document field; the ObjectId `_id` is never queried and reads as absent. */
  function FieldValue(d: Doc, key: string): Option<Value> {
    if key == "robot" then Some(Str(d.robot))
    else if key == "status" then Some(Str(d.status))
    else if key == "description" then Some(Str(d.description))
    else if key == "createdAt" then Some(Date(d.createdAt))
    else None
  }

  /** One comparison operator of a range; a bound of another BSON type never matches. */
  predicate Compare(op: string, bound: Value, v: Value) {
    match (bound, v)
    case (Date(b), Date(t)) =>
      (op == "$gte" && t >= b) || (op == "$lt" && t < b)
    case (Str(b), Str(s)) =>
      (op == "$gte" && !LexLess(s, b)) || (op == "$lt" && LexLess(s, b))
    case _ => false
  }

  predicate CondHolds(c: Cond, fv: Option<Value>) {
    match c
    case Equals(v) => fv == Some(v)
    case Regex(p, options) =>
      fv.Some? && fv.value.Str? &&
      (if 'i' in options then Contains(Lower(fv.value.s), Lower(p)) else Contains(fv.value.s, p))
    case In(vs) => fv.Some? && fv.value.Str? && fv.value.s in vs
    case Range(ops) => fv.Some? && forall op :: op in ops ==> Compare(op, ops[op], fv.value)
  }

  /** A document matches a filter document when it meets the condition of every key. */
  predicate Matches(q: Query, d: Doc) {
    forall k :: k in q ==> CondHolds(q[k], FieldValue(d, k))
  }

  /** `collection.find(q)`: the matching documents, in collection order. */
  function Find(q: Query, collection: seq<Doc>): (r: seq<Doc>)
    ensures |r| <= |collection|
    ensures forall d :: d in r <==> d in collection && Matches(q, d)
    decreases |collection|
  {
    if |collection| == 0 then []
    else
      var rest := Find(q, collection[1..]);
      assert forall d :: d in collection <==> d == collection[0] || d in collection[1..];
      if Matches(q, collection[0]) then [collection[0]] + rest else rest
  }

  /** `find` keeps collection order: its answer is a subsequence of the collection. */
  lemma {:induction false} FindIsSubsequence(q: Query, collection: seq<Doc>)
    ensures IsSubsequence(Find(q, collection), collection)
    decreases |collection|
  {
    if |collection| > 0 {
      FindIsSubsequence(q, collection[1..]);
      var r := Find(q, collection);
      if Matches(q, collection[0]) {
        assert r[1..] == Find(q, collection[1..]);
      }
    }
  }

  /** `find` drops no copy of a matching document: each occurs as often as in the collection. */
  lemma {:induction false} FindMultiplicity(q: Query, collection: seq<Doc>)
    ensures forall d :: multiset(Find(q, collection))[d] == if Matches(q, d) then multiset(collection)[d] else 0
    decreases |collection|
  {
    if |collection| > 0 {
      FindMultiplicity(q, collection[1..]);
      assert collection == [collection[0]] + collection[1..];
      assert multiset(collection) == multiset([collection[0]]) + multiset(collection[1..]);
    }
  }

  /** The empty filter document returns the whole collection, in order. */
  lemma {:induction false} FindAll(collection: seq<Doc>)
    ensures Find(map[], collection) == collection
    decreases |collection|
  {
    if |collection| > 0 {
      FindAll(collection[1..]);
      assert [collection[0]] + collection[1..] == collection;
    }
  }

  /** A filter that no document matches returns nothing. */
  lemma FindNone(q: Query, collection: seq<Doc>)
    requires forall d :: !Matches(q, d)
    ensures Find(q, collection) == []
  {
  }

  /** Filter documents over disjoint keys combine by conjunction. */
  lemma MatchesUnion(a: Query, b: Query, d: Doc)
    requires a.Keys !! b.Keys
    ensures Matches(a + b, d) <==> Matches(a, d) && Matches(b, d)
  {
    if Matches(a, d) && Matches(b, d) {
      forall k | k in a + b ensures CondHolds((a + b)[k], FieldValue(d, k)) {
        if k in b { assert (a + b)[k] == b[k]; } else { assert (a + b)[k] == a[k]; }
      }
    }
    if Matches(a + b, d) {
      forall k | k in a ensures CondHolds(a[k], FieldValue(d, k)) {
        assert k !in b && (a + b)[k] == a[k];
      }
      forall k | k in b ensures CondHolds(b[k], FieldValue(d, k)) {
        assert (a + b)[k] == b[k];
      }
    }
  }

  /** A one-key filter document is its one condition. */
  lemma MatchesSingle(k: string, c: Cond, d: Doc)
    ensures Matches(map[k := c], d) <==> CondHolds(c, FieldValue(d, k))
  {
    assert k in map[k := c];
  }

  /** `collection.find_one(q)` on `bduser` by username: the first user with that name. */
  function FindUser(users: seq<BDUser>, username: string): (r: Option<BDUser>)
    ensures r.None? <==> forall i :: 0 <= i < |users| ==> users[i].username != username
    ensures r.Some? ==> r.value in users && r.value.username == username
    decreases |users|
  {
    if |users| == 0 then None
    else if users[0].username == username then Some(users[0])
    else
      var r := FindUser(users[1..], username);
      assert forall i :: 1 <= i < |users| ==> users[i] == users[1..][i - 1];
      r
  }
}
