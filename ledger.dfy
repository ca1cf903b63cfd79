/** What holds across any sequence of requests to the bot and to `acao`: the log only grows, by
    at most one row per request, rows keep their identity, and the movement log accounts for
    every unit the stock lost. For each product, its quantity plus the units the log records as
    withdrawn from it never changes. */
module Ledger {
  import opened Text
  import opened Roles
  import opened Tables
  import opened Operations

  /** One request: a bot tool call or an HTTP request to `acao`. */
  datatype Request =
    | BotRequest(term: string, qty: int, now: Timestamp)
    | WebRequest(session: Session, kind: string, id: nat, isPost: bool, form: Form, now: Timestamp)

  function Step(db: Db, r: Request): Db {
    match r
    case BotRequest(term, qty, now) => UpdateStock(db, term, qty, now).db
    case WebRequest(session, kind, id, isPost, form, now) => Action(db, session, kind, id, isPost, form, now).db
  }

  function Run(db: Db, rs: seq<Request>): Db
    decreases |rs|
  {
    if |rs| == 0 then db else Run(Step(db, rs[0]), rs[1..])
  }

  /** What one log row records as taken from product `id`. */
  function Taken(row: LogRow, id: int): int {
    if row.tipo_item == ProductKind && row.item_id == id then row.quantidade else 0
  }

  /** The units the log records as taken from product `id`. */
  function Withdrawn(log: seq<LogRow>, id: int): int
    decreases |log|
  {
    if |log| == 0 then 0 else Withdrawn(log[..|log| - 1], id) + Taken(log[|log| - 1], id)
  }

  lemma WithdrawnAppend(log: seq<LogRow>, row: LogRow, id: int)
    ensures Withdrawn(log + [row], id) == Withdrawn(log, id) + Taken(row, id)
  {
  }

  /** Quantity on hand plus units logged as withdrawn. */
  function Balance(db: Db, j: nat): int
    requires j < |db.products|
  {
    db.products[j].quantidade + Withdrawn(db.log, db.products[j].id)
  }

  /** `after` has the same rows as `before`, every product's balance is the same, and
      `after`'s log extends `before`'s. */
  predicate Reconciles(before: Db, after: Db) {
    |after.products| == |before.products| && |after.samples| == |before.samples| &&
    (forall j :: 0 <= j < |before.products| ==>
       after.products[j].id == before.products[j].id && Balance(after, j) == Balance(before, j)) &&
    (forall j :: 0 <= j < |before.samples| ==> SameIdentity(before.samples[j], after.samples[j])) &&
    before.log <= after.log
  }

  lemma ReconcilesTransitive(a: Db, b: Db, c: Db)
    requires Reconciles(a, b) && Reconciles(b, c)
    ensures Reconciles(a, c)
  {
  }

  /** A withdrawal logs exactly what it takes. */
  lemma WithdrawalReconciles(db: Db, i: nat, q: int, acao: string, user: string, now: Timestamp)
    requires UniqueIds(db) && i < |db.products|
    ensures var db' := Withdrawal(db, i, q, acao, user, now);
      Reconciles(db, db') && UniqueIds(db')
  {
  }

  /** A sample POST logs a row that takes nothing from any product. */
  lemma SampleChangeReconciles(db: Db, i: nat, b: Sample, row: LogRow)
    requires UniqueIds(db) && i < |db.samples| && SameIdentity(db.samples[i], b)
    requires row.tipo_item == SampleKind
    ensures var db' := Db(db.products, db.samples[i := b], db.log + [row]);
      Reconciles(db, db') && UniqueIds(db')
  {
  }

  lemma Unchanged(db: Db)
    ensures Reconciles(db, db)
  {
  }

  /** One request keeps the store reconciled and the primary keys unique, and logs at most one row. */
  lemma StepReconciles(db: Db, r: Request)
    requires UniqueIds(db)
    ensures Reconciles(db, Step(db, r)) && UniqueIds(Step(db, r))
    ensures |Step(db, r).log| <= |db.log| + 1
  {
    Unchanged(db);
    match r
    case BotRequest(term, qty, now) =>
      if FindByName(db.products, term).Some? {
        WithdrawalReconciles(db, FindByName(db.products, term).value, qty, SlackWithdrawal, BotUser, now);
      }
    case WebRequest(session, kind, id, isPost, form, now) =>
      var o := Action(db, session, kind, id, isPost, form, now);
      if o.db != db {
        var user := session.userEmail.value;
        if kind == ProductKind {
          var i := ProductAt(db.products, id).value;
          var q := ReadInt(form.qtd, DefaultQtd).value;
          WithdrawalReconciles(db, i, q, WebWithdrawal, user, now);
        } else {
          var i := SampleAt(db.samples, id).value;
          var action := form.acaoAmostra.value;
          var b := Logistics(db.samples[i], action, user, form, now).value;
          SampleChangeReconciles(db, i, b, LogRow(SampleKind, db.samples[i].id, Upper(action), 1, user, now));
        }
      }
  }

  /** Any sequence of requests keeps the store reconciled with where it started, keeps primary
      keys unique, and logs at most one row per request. */
  lemma {:induction false} RunReconciles(db: Db, rs: seq<Request>)
    requires UniqueIds(db)
    ensures Reconciles(db, Run(db, rs)) && UniqueIds(Run(db, rs))
    ensures |Run(db, rs).log| <= |db.log| + |rs|
    decreases |rs|
  {
    if |rs| == 0 {
      Unchanged(db);
    } else {
      var next := Step(db, rs[0]);
      StepReconciles(db, rs[0]);
      RunReconciles(next, rs[1..]);
      ReconcilesTransitive(db, next, Run(next, rs[1..]));
    }
  }
}
