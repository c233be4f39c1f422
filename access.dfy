/** `MyAccessBDD` itself: an object holding the connection, whose methods
    build statements, send them one call at a time and decide between commit
    and rollback. Every method is proved against the function that states
    what the source promises for it: the calls it appends to the
    connection's trace and the value it returns. */
module Access {
  import opened PhpArray
  import opened Connection
  import opened Builders
  import opened Transactions
  import opened Readers
  import opened Composites
  import Dispatch

  class MyAccessBDD {
    const conn: Connection
    /** `password_verify`, which the layer calls but does not define. */
    const passwordVerify: PasswordCheck

    constructor (c: Connection, verify: PasswordCheck)
      ensures conn == c && passwordVerify == verify
    {
      conn := c;
      passwordVerify := verify;
    }

    // The generic single-table builders.

    method SelectTuplesOneTable(table: string, champs: Option<FieldMap>) returns (r: Reply<seq<Row>>)
      modifies conn
      ensures var run := SelectOneTableRun(conn.queryOracle, |old(conn.trace)|, table, champs);
        conn.trace == old(conn.trace) + run.events && r == run.reply
    {
      if IsEmpty(champs) {
        var requete := "select * from " + table + ";";
        r := conn.QueryBDD(Statement(requete, []));
      } else {
        var requete := BuildConjunction("select * from " + table + " where ", champs.value);
        r := conn.QueryBDD(Statement(requete, champs.value));
      }
    }

    method InsertOneTupleOneTable(table: string, champs: Option<FieldMap>) returns (r: Reply<int>)
      modifies conn
      ensures var run := InsertOneTableRun(conn.updateOracle, |old(conn.trace)|, table, champs);
        conn.trace == old(conn.trace) + run.events && r == run.reply
    {
      if IsEmpty(champs) {
        return ReturnedNull;
      }
      var requete := BuildInsert(table, champs.value);
      r := conn.UpdateBDD(Statement(requete, champs.value));
    }

    method UpdateOneTupleOneTable(table: string, id: Option<string>, champs: Option<FieldMap>) returns (r: Reply<int>)
      modifies conn
      ensures var run := UpdateOneTableRun(conn.updateOracle, |old(conn.trace)|, table, id, champs);
        conn.trace == old(conn.trace) + run.events && r == run.reply
    {
      if IsEmpty(champs) {
        return ReturnedNull;
      }
      if id.None? {
        return ReturnedNull;
      }
      var requete := BuildUpdate(table, champs.value);
      var params := Put(champs.value, "id", Text(id.value));
      r := conn.UpdateBDD(Statement(requete, params));
    }

    method DeleteTuplesOneTable(table: string, champs: Option<FieldMap>) returns (r: Reply<int>)
      modifies conn
      ensures var run := DeleteOneTableRun(conn.updateOracle, |old(conn.trace)|, table, champs);
        conn.trace == old(conn.trace) + run.events && r == run.reply
    {
      if IsEmpty(champs) {
        return ReturnedNull;
      }
      var requete := BuildConjunction("delete from " + table + " where ", champs.value);
      r := conn.UpdateBDD(Statement(requete, champs.value));
    }

    // The fixed readers.

    method SelectTableSimple(table: string) returns (r: Reply<seq<Row>>)
      modifies conn
      ensures var run := SelectTableSimpleRun(conn.queryOracle, |old(conn.trace)|, table);
        conn.trace == old(conn.trace) + run.events && r == run.reply
    {
      r := conn.QueryBDD(Statement(SimpleTableText(table), []));
    }

    method SelectAllLivres() returns (r: Reply<seq<Row>>)
      modifies conn
      ensures var run := SelectAllLivresRun(conn.queryOracle, |old(conn.trace)|);
        conn.trace == old(conn.trace) + run.events && r == run.reply
    {
      r := conn.QueryBDD(Statement(LivresText, []));
    }

    method SelectAllDvd() returns (r: Reply<seq<Row>>)
      modifies conn
      ensures var run := SelectAllDvdRun(conn.queryOracle, |old(conn.trace)|);
        conn.trace == old(conn.trace) + run.events && r == run.reply
    {
      r := conn.QueryBDD(Statement(DvdText, []));
    }

    method SelectAllRevues() returns (r: Reply<seq<Row>>)
      modifies conn
      ensures var run := SelectAllRevuesRun(conn.queryOracle, |old(conn.trace)|);
        conn.trace == old(conn.trace) + run.events && r == run.reply
    {
      r := conn.QueryBDD(Statement(RevuesText, []));
    }

    method SelectExemplaires(champs: Option<FieldMap>) returns (r: Reply<seq<Row>>)
      modifies conn
      ensures var run := SelectExemplairesRun(conn.queryOracle, |old(conn.trace)|, champs);
        conn.trace == old(conn.trace) + run.events && r == run.reply
    {
      if IsEmpty(champs) || "id" !in Keys(champs.value) {
        return ReturnedNull;
      }
      var champNecessaire := [("id", Get(champs.value, "id"))];
      r := conn.QueryBDD(Statement(ExemplairesText, champNecessaire));
    }

    method SelectAllCommandes(champs: Option<FieldMap>) returns (r: Reply<seq<Row>>)
      modifies conn
      ensures var run := SelectAllCommandesRun(conn.queryOracle, |old(conn.trace)|, champs);
        conn.trace == old(conn.trace) + run.events && r == run.reply
    {
      if IsEmpty(champs) || !IsSet(champs.value, "id") {
        r := conn.QueryBDD(Statement(AllCommandesText, []));
      } else {
        r := conn.QueryBDD(Statement(DocumentCommandesText, [("id", Get(champs.value, "id"))]));
      }
    }

    method SelectAbonnementsRevue(champs: Option<FieldMap>) returns (r: Reply<seq<Row>>)
      modifies conn
      ensures var run := SelectAbonnementsRevueRun(conn.queryOracle, |old(conn.trace)|, champs);
        conn.trace == old(conn.trace) + run.events && r == run.reply
    {
      if IsEmpty(champs) || !IsSet(champs.value, "id") {
        r := conn.QueryBDD(Statement(AllAbonnementsText, []));
      } else {
        r := conn.QueryBDD(Statement(RevueAbonnementsText, [("idR", Get(champs.value, "id"))]));
      }
    }

    method Login(champs: Option<FieldMap>) returns (r: Reply<Row>)
      modifies conn
      ensures var run := LoginRun(conn.queryOracle, passwordVerify, |old(conn.trace)|, champs);
        conn.trace == old(conn.trace) + run.events && r == run.reply
    {
      var email := Field(champs, "email");
      var pwd := Field(champs, "password");
      if email.Null? || pwd.Null? {
        return ReturnedNull;
      }
      var user := conn.QueryBDD(LoginStatement(email.s));
      if user.Raised? {
        return Raised;
      }
      if user.Returned? && |user.value| > 0 {
        if passwordVerify(pwd.s, StoredHash(user.value[0])) {
          var account := Unset(user.value[0], "password");
          return Returned(account);
        }
      }
      return ReturnedNull;
    }

    // The `try` blocks of the composite handlers: `beginTransaction`, the
    // statements one at a time, and the decision of the policy. An exception
    // from a statement ends the block: the `catch` rolls back, then returns
    // `null` (or rethrows).

    method TryOne(s0: Statement, p: Policy) returns (r: Reply<int>)
      modifies conn
      ensures var run := TransactionOne(conn.updateOracle, |old(conn.trace)|, s0, p);
        conn.trace == old(conn.trace) + run.events && r == run.reply
    {
      conn.BeginTransaction();
      var r0 := conn.UpdateBDD(s0);
      if r0.Raised? {
        conn.Rollback();
        return Aborted(p);
      }
      if p.CommitUnlessRaised? {
        conn.Commit();
        return r0;
      }
      if r0 != ReturnedNull {
        conn.Commit();
        return Returned(1);
      }
      conn.Rollback();
      return ReturnedNull;
    }

    method TryTwo(s0: Statement, s1: Statement, p: Policy) returns (r: Reply<int>)
      modifies conn
      ensures var run := TransactionTwo(conn.updateOracle, |old(conn.trace)|, s0, s1, p);
        conn.trace == old(conn.trace) + run.events && r == run.reply
    {
      conn.BeginTransaction();
      var r0 := conn.UpdateBDD(s0);
      if r0.Raised? {
        conn.Rollback();
        return Aborted(p);
      }
      var r1 := conn.UpdateBDD(s1);
      if r1.Raised? {
        conn.Rollback();
        return Aborted(p);
      }
      if p.CommitUnlessRaised? {
        conn.Commit();
        return r1;
      }
      if r0 != ReturnedNull && r1 != ReturnedNull {
        conn.Commit();
        return Returned(1);
      }
      conn.Rollback();
      return ReturnedNull;
    }

    method TryThree(s0: Statement, s1: Statement, s2: Statement, p: Policy) returns (r: Reply<int>)
      modifies conn
      ensures var run := TransactionThree(conn.updateOracle, |old(conn.trace)|, s0, s1, s2, p);
        conn.trace == old(conn.trace) + run.events && r == run.reply
    {
      ghost var u, at := conn.updateOracle, |conn.trace|;
      conn.BeginTransaction();
      var r0 := conn.UpdateBDD(s0);
      assert r0 == u(at + 1, s0) && conn.trace == old(conn.trace) + [Begin, Update(s0, r0)];
      if r0.Raised? {
        conn.Rollback();
        return Aborted(p);
      }
      var r1 := conn.UpdateBDD(s1);
      assert r1 == u(at + 2, s1) && conn.trace == old(conn.trace) + [Begin, Update(s0, r0), Update(s1, r1)];
      if r1.Raised? {
        conn.Rollback();
        return Aborted(p);
      }
      var r2 := conn.UpdateBDD(s2);
      ghost var sent := [Begin, Update(s0, r0), Update(s1, r1), Update(s2, r2)];
      assert r2 == u(at + 3, s2) && conn.trace == old(conn.trace) + sent;
      if r2.Raised? {
        conn.Rollback();
        return Aborted(p);
      }
      if p.CommitUnlessRaised? {
        conn.Commit();
        return r2;
      }
      if r0 != ReturnedNull && r1 != ReturnedNull && r2 != ReturnedNull {
        conn.Commit();
        return Returned(1);
      }
      conn.Rollback();
      return ReturnedNull;
    }

    // The statements of the composite handlers, built as
    // `insertOneTupleOneTable` and `updateOneTupleOneTable` build them.

    method InsertInto(table: string, champs: FieldMap) returns (st: Statement)
      requires |champs| > 0
      ensures st == InsertStatement(table, champs)
    {
      var requete := BuildInsert(table, champs);
      st := Statement(requete, champs);
    }

    method UpdateIn(table: string, id: string, champs: FieldMap) returns (st: Statement)
      requires |champs| > 0
      ensures st == UpdateStatement(table, id, champs)
    {
      var requete := BuildUpdate(table, champs);
      st := Statement(requete, Put(champs, "id", Text(id)));
    }

    // The composite inserts.

    method InsertRevue(champs: Option<FieldMap>) returns (r: Reply<int>)
      modifies conn
      ensures var run := InsertRevueRun(conn.updateOracle, |old(conn.trace)|, champs);
        conn.trace == old(conn.trace) + run.events && r == run.reply
    {
      if champs.None? {
        return Raised;
      }
      var c := champs.value;
      var resDoc := InsertInto("document", Project(c, DocumentColumns));
      var resRevue := InsertInto("revue", Project(c, RevueColumns));
      TransactionOfTwo(conn.updateOracle, |conn.trace|, resDoc, resRevue, AllOrNothing(false));
      r := TryTwo(resDoc, resRevue, AllOrNothing(false));
    }

    /** The only handler whose `catch` rethrows after rolling back. */
    method InsertLivre(champs: Option<FieldMap>) returns (r: Reply<int>)
      modifies conn
      ensures var run := InsertLivreRun(conn.updateOracle, |old(conn.trace)|, champs);
        conn.trace == old(conn.trace) + run.events && r == run.reply
    {
      if champs.None? {
        return Raised;
      }
      var c := champs.value;
      var resDoc := InsertInto("document", Project(c, DocumentColumns));
      var resLD := InsertInto("livres_dvd", Project(c, LivresDvdColumns));
      var resLivre := InsertInto("livre", Project(c, LivreColumns));
      TransactionOfThree(conn.updateOracle, |conn.trace|, resDoc, resLD, resLivre, AllOrNothing(true));
      r := TryThree(resDoc, resLD, resLivre, AllOrNothing(true));
    }

    method InsertDvd(champs: Option<FieldMap>) returns (r: Reply<int>)
      modifies conn
      ensures var run := InsertDvdRun(conn.updateOracle, |old(conn.trace)|, champs);
        conn.trace == old(conn.trace) + run.events && r == run.reply
    {
      if champs.None? {
        return Raised;
      }
      var c := champs.value;
      var resDoc := InsertInto("document", Project(c, DocumentColumns));
      var resLD := InsertInto("livres_dvd", Project(c, LivresDvdColumns));
      var resDvd := InsertInto("dvd", Project(c, Composites.DvdColumns));
      TransactionOfThree(conn.updateOracle, |conn.trace|, resDoc, resLD, resDvd, AllOrNothing(false));
      r := TryThree(resDoc, resLD, resDvd, AllOrNothing(false));
    }

    /** The `commande` insert's answer is discarded; the order line gets the
        initial follow-up stage. */
    method InsertCommandeDocument(champs: Option<FieldMap>) returns (r: Reply<int>)
      modifies conn
      ensures var run := InsertCommandeDocumentRun(conn.updateOracle, |old(conn.trace)|, champs);
        conn.trace == old(conn.trace) + run.events && r == run.reply
    {
      if champs.None? {
        return Raised;
      }
      var c := champs.value;
      var commande := InsertInto("commande", Project(c, CommandeColumns));
      var ligne := Put(Project(c, CommandeDocumentColumns), "idsuivi", Text(InitialSuivi));
      var res := InsertInto("commandedocument", ligne);
      TransactionOfTwo(conn.updateOracle, |conn.trace|, commande, res, CommitUnlessRaised);
      r := TryTwo(commande, res, CommitUnlessRaised);
    }

    method InsertAbonnement(champs: Option<FieldMap>) returns (r: Reply<int>)
      modifies conn
      ensures var run := InsertAbonnementRun(conn.updateOracle, |old(conn.trace)|, champs);
        conn.trace == old(conn.trace) + run.events && r == run.reply
    {
      if champs.None? {
        return Raised;
      }
      var c := champs.value;
      var commande := InsertInto("commande", Project(c, CommandeColumns));
      var res := InsertInto("abonnement", Project(c, AbonnementColumns));
      TransactionOfTwo(conn.updateOracle, |conn.trace|, commande, res, CommitUnlessRaised);
      r := TryTwo(commande, res, CommitUnlessRaised);
    }

    // The composite updates.

    method UpdateLivre(id: Option<string>, champs: Option<FieldMap>) returns (r: Reply<int>)
      modifies conn
      ensures var run := UpdateLivreRun(conn.updateOracle, |old(conn.trace)|, id, champs);
        conn.trace == old(conn.trace) + run.events && r == run.reply
    {
      if id.None? || champs.None? {
        return Raised;
      }
      var c := champs.value;
      var resDoc := UpdateIn("document", id.value, Project(c, DocumentUpdateColumns));
      var resLivre := UpdateIn("livre", id.value, Project(c, LivreUpdateColumns));
      TransactionOfTwo(conn.updateOracle, |conn.trace|, resDoc, resLivre, AllOrNothing(false));
      r := TryTwo(resDoc, resLivre, AllOrNothing(false));
    }

    method UpdateDvd(id: Option<string>, champs: Option<FieldMap>) returns (r: Reply<int>)
      modifies conn
      ensures var run := UpdateDvdRun(conn.updateOracle, |old(conn.trace)|, id, champs);
        conn.trace == old(conn.trace) + run.events && r == run.reply
    {
      if id.None? || champs.None? {
        return Raised;
      }
      var c := champs.value;
      var resDoc := UpdateIn("document", id.value, Project(c, DocumentUpdateColumns));
      var resDvd := UpdateIn("dvd", id.value, Project(c, DvdUpdateColumns));
      TransactionOfTwo(conn.updateOracle, |conn.trace|, resDoc, resDvd, AllOrNothing(false));
      r := TryTwo(resDoc, resDvd, AllOrNothing(false));
    }

    method UpdateRevue(id: Option<string>, champs: Option<FieldMap>) returns (r: Reply<int>)
      modifies conn
      ensures var run := UpdateRevueRun(conn.updateOracle, |old(conn.trace)|, id, champs);
        conn.trace == old(conn.trace) + run.events && r == run.reply
    {
      if id.None? || champs.None? {
        return Raised;
      }
      var c := champs.value;
      var resDoc := UpdateIn("document", id.value, Project(c, DocumentUpdateColumns));
      var resRevue := UpdateIn("revue", id.value, Project(c, RevueUpdateColumns));
      TransactionOfTwo(conn.updateOracle, |conn.trace|, resDoc, resRevue, AllOrNothing(false));
      r := TryTwo(resDoc, resRevue, AllOrNothing(false));
    }

    // The composite deletes: the identifier comes from the payload, and the
    // answers of the intermediate deletes are not inspected.

    method DeleteLivre(champs: Option<FieldMap>) returns (r: Reply<int>)
      modifies conn
      ensures var run := DeleteLivreRun(conn.updateOracle, |old(conn.trace)|, champs);
        conn.trace == old(conn.trace) + run.events && r == run.reply
    {
      var id := Field(champs, "id");
      if id.Null? {
        return ReturnedNull;
      }
      var s0, s1, s2 := DeleteById("livre", id.s), DeleteById("livres_dvd", id.s), DeleteById("document", id.s);
      TransactionOfThree(conn.updateOracle, |conn.trace|, s0, s1, s2, CommitUnlessRaised);
      r := TryThree(s0, s1, s2, CommitUnlessRaised);
    }

    method DeleteDvd(champs: Option<FieldMap>) returns (r: Reply<int>)
      modifies conn
      ensures var run := DeleteDvdRun(conn.updateOracle, |old(conn.trace)|, champs);
        conn.trace == old(conn.trace) + run.events && r == run.reply
    {
      var id := Field(champs, "id");
      if id.Null? {
        return ReturnedNull;
      }
      var s0, s1, s2 := DeleteById("dvd", id.s), DeleteById("livres_dvd", id.s), DeleteById("document", id.s);
      TransactionOfThree(conn.updateOracle, |conn.trace|, s0, s1, s2, CommitUnlessRaised);
      r := TryThree(s0, s1, s2, CommitUnlessRaised);
    }

    method DeleteRevue(champs: Option<FieldMap>) returns (r: Reply<int>)
      modifies conn
      ensures var run := DeleteRevueRun(conn.updateOracle, |old(conn.trace)|, champs);
        conn.trace == old(conn.trace) + run.events && r == run.reply
    {
      var id := Field(champs, "id");
      if id.Null? {
        return ReturnedNull;
      }
      var s0, s1 := DeleteById("revue", id.s), DeleteById("document", id.s);
      TransactionOfTwo(conn.updateOracle, |conn.trace|, s0, s1, CommitUnlessRaised);
      r := TryTwo(s0, s1, CommitUnlessRaised);
    }

    method DeleteCommande(champs: Option<FieldMap>) returns (r: Reply<int>)
      modifies conn
      ensures var run := DeleteCommandeRun(conn.updateOracle, |old(conn.trace)|, champs);
        conn.trace == old(conn.trace) + run.events && r == run.reply
    {
      var id := Field(champs, "id");
      if id.Null? {
        return ReturnedNull;
      }
      var s0 := DeleteById("commande", id.s);
      TransactionOfOne(conn.updateOracle, |conn.trace|, s0, CommitUnlessRaised);
      r := TryOne(s0, CommitUnlessRaised);
    }

    method DeleteExemplaire(champs: Option<FieldMap>) returns (r: Reply<int>)
      modifies conn
      ensures var run := DeleteExemplaireRun(conn.updateOracle, |old(conn.trace)|, champs);
        conn.trace == old(conn.trace) + run.events && r == run.reply
    {
      var id := Field(champs, "id");
      var numero := Field(champs, "numero");
      if id.Null? {
        return ReturnedNull;
      }
      var s0 := DeleteExemplaireStatement(id.s, numero);
      TransactionOfOne(conn.updateOracle, |conn.trace|, s0, CommitUnlessRaised);
      r := TryOne(s0, CommitUnlessRaised);
    }

    // The narrow updates, sent outside any transaction.

    method UpdateSuiviCommande(id: Option<string>, champs: Option<FieldMap>) returns (r: Reply<int>)
      modifies conn
      ensures var run := UpdateSuiviCommandeRun(conn.updateOracle, |old(conn.trace)|, id, champs);
        conn.trace == old(conn.trace) + run.events && r == run.reply
    {
      if id.None? || champs.None? {
        return Raised;
      }
      if !IsSet(champs.value, "idsuivi") {
        return ReturnedNull;
      }
      r := conn.UpdateBDD(SuiviStatement(id.value, Get(champs.value, "idsuivi")));
    }

    method UpdateEtatExemplaire(id: Option<string>, numero: Value, champs: Option<FieldMap>) returns (r: Reply<int>)
      modifies conn
      ensures var run := UpdateEtatExemplaireRun(conn.updateOracle, |old(conn.trace)|, id, numero, champs);
        conn.trace == old(conn.trace) + run.events && r == run.reply
    {
      if id.None? || numero.Null? || champs.None? {
        return Raised;
      }
      if !IsSet(champs.value, "idetat") {
        return ReturnedNull;
      }
      r := conn.UpdateBDD(EtatStatement(id.value, numero.s, Get(champs.value, "idetat")));
    }

    // The four entry points: the branch of `switch ($table)` the table
    // selects, then the dedicated handler or the generic builder.

    method TraitementSelect(table: string, champs: Option<FieldMap>) returns (r: Reply<seq<Row>>)
      modifies conn
      ensures var run := Dispatch.SelectRun(conn.queryOracle, passwordVerify, |old(conn.trace)|, table, champs);
        conn.trace == old(conn.trace) + run.events && r == run.reply
    {
      match Dispatch.SelectRouteOf(table)
      case AllLivres => r := SelectAllLivres();
      case AllDvd => r := SelectAllDvd();
      case AllRevues => r := SelectAllRevues();
      case Exemplaires => r := SelectExemplaires(champs);
      case Commandes => r := SelectAllCommandes(champs);
      case Abonnements => r := SelectAbonnementsRevue(champs);
      case SimpleTable => r := SelectTableSimple(table);
      case Login =>
        var res := Login(champs);
        r := Dispatch.AccountRows(res);
      case GenericSelect => r := SelectTuplesOneTable(table, champs);
    }

    method TraitementInsert(table: string, champs: Option<FieldMap>) returns (r: Reply<int>)
      modifies conn
      ensures var run := Dispatch.InsertRun(conn.updateOracle, |old(conn.trace)|, table, champs);
        conn.trace == old(conn.trace) + run.events && r == run.reply
    {
      match Dispatch.InsertRouteOf(table)
      case InsertRevue => r := InsertRevue(champs);
      case InsertLivre => r := InsertLivre(champs);
      case InsertDvd => r := InsertDvd(champs);
      case InsertCommandeDocument => r := InsertCommandeDocument(champs);
      case InsertAbonnement => r := InsertAbonnement(champs);
      case GenericInsert => r := InsertOneTupleOneTable(table, champs);
    }

    /** The copy handler receives `$champs['numero']`: `null` when the payload
        is null or has no `numero`. */
    method TraitementUpdate(table: string, id: Option<string>, champs: Option<FieldMap>) returns (r: Reply<int>)
      modifies conn
      ensures var run := Dispatch.UpdateRun(conn.updateOracle, |old(conn.trace)|, table, id, champs);
        conn.trace == old(conn.trace) + run.events && r == run.reply
    {
      match Dispatch.UpdateRouteOf(table)
      case UpdateLivre => r := UpdateLivre(id, champs);
      case UpdateDvd => r := UpdateDvd(id, champs);
      case UpdateRevue => r := UpdateRevue(id, champs);
      case UpdateSuiviCommande => r := UpdateSuiviCommande(id, champs);
      case UpdateEtatExemplaire => r := UpdateEtatExemplaire(id, Field(champs, "numero"), champs);
      case GenericUpdate => r := UpdateOneTupleOneTable(table, id, champs);
    }

    method TraitementDelete(table: string, champs: Option<FieldMap>) returns (r: Reply<int>)
      modifies conn
      ensures var run := Dispatch.DeleteRun(conn.updateOracle, |old(conn.trace)|, table, champs);
        conn.trace == old(conn.trace) + run.events && r == run.reply
    {
      match Dispatch.DeleteRouteOf(table)
      case DeleteLivre => r := DeleteLivre(champs);
      case DeleteDvd => r := DeleteDvd(champs);
      case DeleteRevue => r := DeleteRevue(champs);
      case DeleteCommande => r := DeleteCommande(champs);
      case DeleteExemplaire => r := DeleteExemplaire(champs);
      case GenericDelete => r := DeleteTuplesOneTable(table, champs);
    }
  }
}
