/** The store as the handlers change it: the product and sample tables are arrays whose rows the
    handlers overwrite in place, and the movement log is a sequence they append to. Each method's
    new state and answer are those of the matching function in `Operations`. */
module Inventory {
  import opened Wrappers
  import opened Text
  import opened Roles
  import opened Tables
  import opened Operations

  class Store {
    var products: array<Product>
    var samples: array<Sample>
    var log: seq<LogRow>

    /** The abstract value of the store. */
    ghost function Contents(): Db
      reads this, products, samples
    {
      Db(products[..], samples[..], log)
    }

    /** `id` is the primary key of both tables. */
    ghost predicate Valid()
      reads this, products, samples
    {
      UniqueIds(Contents())
    }

    constructor (ps: seq<Product>, ss: seq<Sample>)
      requires UniqueIds(Db(ps, ss, []))
      ensures Valid() && Contents() == Db(ps, ss, [])
      ensures fresh(products) && fresh(samples)
    {
      products := new Product[|ps|](i requires 0 <= i < |ps| => ps[i]);
      samples := new Sample[|ss|](i requires 0 <= i < |ss| => ss[i]);
      log := [];
    }

    /** `tool_atualizar_estoque(term, qty)`. */
    method UpdateStock(term: string, qty: int, now: Timestamp) returns (reply: string)
      requires Valid()
      modifies this`log, products
      ensures Valid()
      ensures Outcome(Contents(), reply) == Operations.UpdateStock(old(Contents()), term, qty, now)
    {
      match FindByName(products[..], term)
      case None =>
        reply := ProductNotFound;
      case Some(i) =>
        var p := products[i];
        products[i] := p.(quantidade := p.quantidade - qty);
        log := log + [LogRow(ProductKind, p.id, SlackWithdrawal, qty, BotUser, now)];
        reply := UpdatedReply(products[i]);
        assert Contents() == Withdrawal(old(Contents()), i, qty, SlackWithdrawal, BotUser, now);
    }

    /** `acao(kind, id)`. */
    method Action(session: Session, kind: string, id: nat, isPost: bool, form: Form, now: Timestamp)
      returns (reply: Reply)
      requires Valid()
      modifies this`log, products, samples
      ensures Valid()
      ensures Outcome(Contents(), reply) == Operations.Action(old(Contents()), session, kind, id, isPost, form, now)
    {
      if session.userEmail.None? {
        return ToLogin;
      }
      var user := session.userEmail.value;
      var denial := AccessDenial(kind, SessionRole(session));
      if denial.Some? {
        return Refused(denial.value);
      }
      if kind == ProductKind {
        var found := ProductAt(products[..], id);
        if found.None? {
          return NotFound;
        }
        if !isPost {
          return Page(None);
        }
        var qtd := ReadInt(form.qtd, DefaultQtd);
        if qtd.None? {
          return ServerError;
        }
        var i, q := found.value, qtd.value;
        var p := products[i];
        products[i] := p.(quantidade := p.quantidade - q);
        log := log + [LogRow(ProductKind, p.id, WebWithdrawal, q, user, now)];
        reply := Page(Some("Retirado " + IntText(q) + " un de " + p.nome + "."));
      } else if kind == SampleKind {
        var found := SampleAt(samples[..], id);
        if found.None? {
          return NotFound;
        }
        if !isPost {
          return Page(None);
        }
        if form.acaoAmostra.None? {
          return ServerError;
        }
        var i, action := found.value, form.acaoAmostra.value;
        var a := samples[i];
        if action == Retirar {
          var dias := ReadInt(form.diasPrazo, DefaultDias);
          if dias.None? {
            return ServerError;
          }
          samples[i] := CheckOut(a, user, form.clienteDestino, form.logradouro, dias.value, now);
        } else if action == Devolver {
          samples[i] := Return(a);
        }
        log := log + [LogRow(SampleKind, a.id, Upper(action), 1, user, now)];
        reply := Page(Some(LogisticsUpdated));
      } else {
        reply := Page(None);
      }
    }
  }
}
