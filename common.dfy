/** Small shared vocabulary: optional values, identifiers and the two user roles. */
module Common {

  datatype Option<+T> = None | Some(value: T)

  /** Store-generated identifiers (Mongo ObjectIds), modelled as naturals. */
  type Id = nat

  /** The `UserRole` union `'agent' | 'client'`, also the role claim of a token. */
  datatype Role = Agent | Client

  function RoleName(r: Role): string
  {
    match r
    case Agent => "agent"
    case Client => "client"
  }

  /** The schema enum check on a role string sent by a client. */
  function ParseRole(s: string): (r: Option<Role>)
    ensures r.Some? <==> s == "agent" || s == "client"
    ensures r.Some? ==> RoleName(r.value) == s
  {
    if s == "agent" then Some(Agent)
    else if s == "client" then Some(Client)
    else None
  }

  lemma ParseRoleName(r: Role)
    ensures ParseRole(RoleName(r)) == Some(r)
  {
  }

  /** The elements of `s` that satisfy `keep`, in their original order (a query's `find(filter)`). */
  function Where<T>(s: seq<T>, keep: T -> bool): (r: seq<T>)
    ensures |r| <= |s|
    ensures forall x :: x in r ==> x in s && keep(x)
    ensures forall x :: x in s && keep(x) ==> x in r
  {
    if s == [] then []
    else if keep(s[0]) then [s[0]] + Where(s[1..], keep)
    else Where(s[1..], keep)
  }

  /** Selecting with a predicate that every element satisfies keeps the whole sequence. */
  lemma {:induction false} WhereAll<T>(s: seq<T>, keep: T -> bool)
    requires forall x :: x in s ==> keep(x)
    ensures Where(s, keep) == s
  {
    if s != [] {
      WhereAll(s[1..], keep);
    }
  }

  /** Two predicates that agree on the elements of `s` select the same elements. */
  lemma {:induction false} WhereSame<T>(s: seq<T>, k1: T -> bool, k2: T -> bool)
    requires forall x :: x in s ==> k1(x) == k2(x)
    ensures Where(s, k1) == Where(s, k2)
  {
    if s != [] {
      WhereSame(s[1..], k1, k2);
    }
  }
}
