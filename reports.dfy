/** What the report routes share: the goals of each role, the chain of query errors, the
    de-duplication of trips by map and the access filter that lets a collaborator see only
    the lines bearing their own CPF. */
module Reports {
  import opened Wrappers
  import opened Text
  import opened Collections
  import Analysis

  // ---------------------------------------------------------------------------
  // Goals

  /** The goals of one role, by key; the goals store hands every amount out as a number. */
  type Goals = map<string, real>

  /** The goals of every role, under "motorista" and "ajudante". */
  type Metas = map<string, Goals>

  /** metas.get(role, {}) */
  function GoalsOf(m: Metas, role: string): Goals { if role in m then m[role] else map[] }

  /** goals.get(key, default) */
  function Goal(g: Goals, key: string, default: real): real { if key in g then g[key] else default }

  // ---------------------------------------------------------------------------
  // err1 or err2 or ...

  /** A query error is truthy when it is a non-empty text. */
  predicate Truthy(e: Option<string>) { e.Some? && |e.value| > 0 }

  /** Python's `or` chain: the first truthy operand, else the last operand. */
  function FirstTruthy(errs: seq<Option<string>>): (r: Option<string>)
    requires |errs| > 0
    ensures r in errs
  {
    if |errs| == 1 || Truthy(errs[0]) then errs[0] else FirstTruthy(errs[1..])
  }

  /** The chain yields the first truthy error... */
  lemma {:induction false} FirstTruthyIsFirst(errs: seq<Option<string>>, i: int)
    requires 0 <= i < |errs| && Truthy(errs[i])
    requires forall j :: 0 <= j < i ==> !Truthy(errs[j])
    ensures FirstTruthy(errs) == errs[i]
  {
    if i > 0 {
      assert !Truthy(errs[0]);
      forall j | 0 <= j < i - 1 ensures !Truthy(errs[1..][j]) { assert errs[1..][j] == errs[j + 1]; }
      FirstTruthyIsFirst(errs[1..], i - 1);
    }
  }

  /** ...and is falsy exactly when every error is. */
  lemma {:induction false} FirstTruthyIff(errs: seq<Option<string>>)
    requires |errs| > 0
    ensures Truthy(FirstTruthy(errs)) <==> exists i :: 0 <= i < |errs| && Truthy(errs[i])
  {
    if |errs| > 1 && !Truthy(errs[0]) {
      FirstTruthyIff(errs[1..]);
      if exists i :: 0 <= i < |errs| && Truthy(errs[i]) {
        var i :| 0 <= i < |errs| && Truthy(errs[i]);
        assert errs[1..][i - 1] == errs[i];
      }
    }
  }

  // ---------------------------------------------------------------------------
  // The report's trips

  /** The MAPA cell of a trip. */
  function MapaCell(t: Analysis.Trip): Cell { Analysis.At(t, "MAPA") }

  /** The trips the payment and incentive reports work on: the first trip of each MAPA when the
      table has that column, else the table without exact duplicate rows. */
  function DedupTrips(tab: Analysis.Table): (r: Analysis.Table)
    ensures r.columns == tab.columns
    ensures forall t :: t in r.trips ==> t in tab.trips
  {
    if "MAPA" in tab.columns then Analysis.Table(tab.columns, DedupBy(tab.trips, MapaCell))
    else Analysis.Table(tab.columns, Dedup(tab.trips))
  }

  /** With a MAPA column, every map survives, once, through its first trip; without one,
      every distinct row survives once. */
  lemma DedupTripsKeepsFirst(tab: Analysis.Table)
    ensures var r := DedupTrips(tab).trips;
            && ("MAPA" in tab.columns ==>
                  && KeySet(r, MapaCell) == KeySet(tab.trips, MapaCell)
                  && (forall i, j :: 0 <= i < j < |r| ==> MapaCell(r[i]) != MapaCell(r[j]))
                  && (forall t :: t in r ==> t == FirstWith(tab.trips, MapaCell, MapaCell(t))))
            && ("MAPA" !in tab.columns ==>
                  && (forall t :: t in r <==> t in tab.trips)
                  && (forall i, j :: 0 <= i < j < |r| ==> r[i] != r[j]))
  {
  }

  // ---------------------------------------------------------------------------
  // The access filter

  /** The authenticated user: the username (a collaborator logs in with the CPF) and the role. */
  datatype User = User(username: string, role: string)

  predicate IsAdmin(u: User) { u.role == "admin" }

  /** The username with every '.' and '-' removed. */
  function UserCpf(u: User): string { RemoveDotsAndDashes(u.username) }

  /** An administrator sees every line; anyone else only the lines whose CPF, with '.' and '-'
      removed, is their normalised username. */
  function CpfFilter<T(==,!new)>(rows: seq<T>, cpf: T -> string, u: User): (r: seq<T>)
    ensures |r| <= |rows|
  {
    if IsAdmin(u) then rows else Filter(rows, (x: T) => RemoveDotsAndDashes(cpf(x)) == UserCpf(u))
  }

  lemma CpfFilterIff<T(!new)>(rows: seq<T>, cpf: T -> string, u: User, x: T)
    ensures x in CpfFilter(rows, cpf, u) <==>
            x in rows && (IsAdmin(u) || RemoveDotsAndDashes(cpf(x)) == UserCpf(u))
  {
    var p := (y: T) => RemoveDotsAndDashes(cpf(y)) == UserCpf(u);
    FilterMembership(rows, p);
  }

  /** Formatting does not matter: a line whose CPF is the same digits as the username, written
      with or without separators, is seen. */
  lemma CpfFilterIgnoresSeparators<T(!new)>(rows: seq<T>, cpf: T -> string, u: User, x: T)
    requires x in rows
    requires RemoveDotsAndDashes(cpf(x)) == RemoveDotsAndDashes(u.username)
    ensures x in CpfFilter(rows, cpf, u)
  {
    CpfFilterIff(rows, cpf, u, x);
  }
}
