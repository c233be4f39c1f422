/** The composite handlers of `MyAccessBDD`: the inserts, updates and deletes
    that touch a document and the tables specialising it inside one
    transaction, and the two narrow updates of an order and of a copy. Each
    handler is described by the list of statements it sends (its plan) and
    the policy that decides its commit. */
module Composites {
  import opened PhpArray
  import opened SqlText
  import opened Connection
  import opened Builders
  import opened Transactions

  /** A list of column names, none repeated. */
  type ColumnList = ks: seq<string> | Distinct(ks) witness []

  // The columns each handler copies from its payload, in the order of the
  // PHP array literals.

  const DocumentColumns: ColumnList := ["id", "titre", "image", "idRayon", "idPublic", "idGenre"]
  const RevueColumns: ColumnList := ["id", "periodicite", "delaiMiseADispo"]
  const LivresDvdColumns: ColumnList := ["id"]
  const LivreColumns: ColumnList := ["id", "ISBN", "auteur", "collection"]
  const DvdColumns: ColumnList := ["id", "synopsis", "realisateur", "duree"]
  const CommandeColumns: ColumnList := ["id", "dateCommande", "montant"]
  const CommandeDocumentColumns: ColumnList := ["id", "nbExemplaire", "idLivreDvd"]
  const AbonnementColumns: ColumnList := ["id", "dateFinAbonnement", "idRevue"]

  // The update handlers copy the same columns without `id`, which the
  // generic update binds from its separate identifier.

  const DocumentUpdateColumns: ColumnList := ["titre", "image", "idRayon", "idPublic", "idGenre"]
  const LivreUpdateColumns: ColumnList := ["ISBN", "auteur", "collection"]
  const DvdUpdateColumns: ColumnList := ["synopsis", "realisateur", "duree"]
  const RevueUpdateColumns: ColumnList := ["periodicite", "delaiMiseADispo"]

  /** The follow-up stage every new order line starts in. */
  const InitialSuivi: string := "00001"

  // The plans.

  function InsertRevuePlan(c: FieldMap): seq<Statement> {
    [ InsertStatement("document", Project(c, DocumentColumns)),
      InsertStatement("revue", Project(c, RevueColumns)) ]
  }

  function InsertLivrePlan(c: FieldMap): seq<Statement> {
    [ InsertStatement("document", Project(c, DocumentColumns)),
      InsertStatement("livres_dvd", Project(c, LivresDvdColumns)),
      InsertStatement("livre", Project(c, LivreColumns)) ]
  }

  function InsertDvdPlan(c: FieldMap): seq<Statement> {
    [ InsertStatement("document", Project(c, DocumentColumns)),
      InsertStatement("livres_dvd", Project(c, LivresDvdColumns)),
      InsertStatement("dvd", Project(c, DvdColumns)) ]
  }

  /** The order line: the payload's columns, and the initial stage whatever
      the payload says. */
  function OrderLine(c: FieldMap): FieldMap {
    Put(Project(c, CommandeDocumentColumns), "idsuivi", Text(InitialSuivi))
  }

  function InsertCommandeDocumentPlan(c: FieldMap): seq<Statement> {
    [ InsertStatement("commande", Project(c, CommandeColumns)),
      InsertStatement("commandedocument", OrderLine(c)) ]
  }

  function InsertAbonnementPlan(c: FieldMap): seq<Statement> {
    [ InsertStatement("commande", Project(c, CommandeColumns)),
      InsertStatement("abonnement", Project(c, AbonnementColumns)) ]
  }

  function UpdateLivrePlan(id: string, c: FieldMap): seq<Statement> {
    [ UpdateStatement("document", id, Project(c, DocumentUpdateColumns)),
      UpdateStatement("livre", id, Project(c, LivreUpdateColumns)) ]
  }

  function UpdateDvdPlan(id: string, c: FieldMap): seq<Statement> {
    [ UpdateStatement("document", id, Project(c, DocumentUpdateColumns)),
      UpdateStatement("dvd", id, Project(c, DvdUpdateColumns)) ]
  }

  function UpdateRevuePlan(id: string, c: FieldMap): seq<Statement> {
    [ UpdateStatement("document", id, Project(c, DocumentUpdateColumns)),
      UpdateStatement("revue", id, Project(c, RevueUpdateColumns)) ]
  }

  /** `delete from t where id=:id`, bound to the given identifier. */
  function DeleteById(t: string, id: string): Statement {
    Statement("delete from " + t + " where id=" + Marker("id"), [("id", Text(id))])
  }

  function DeleteLivrePlan(id: string): seq<Statement> {
    [DeleteById("livre", id), DeleteById("livres_dvd", id), DeleteById("document", id)]
  }

  function DeleteDvdPlan(id: string): seq<Statement> {
    [DeleteById("dvd", id), DeleteById("livres_dvd", id), DeleteById("document", id)]
  }

  function DeleteRevuePlan(id: string): seq<Statement> {
    [DeleteById("revue", id), DeleteById("document", id)]
  }

  function DeleteCommandePlan(id: string): seq<Statement> {
    [DeleteById("commande", id)]
  }

  /** The copy `numero` of document `id`; `numero` is bound as found, `null`
      included. */
  function DeleteExemplaireStatement(id: string, numero: Value): Statement {
    Statement("delete from " + "exemplaire " + "where id=" + Marker("id") + " AND numero=" + Marker("numero"),
              [("id", Text(id)), ("numero", numero)])
  }

  function SuiviStatement(id: string, idsuivi: Value): Statement {
    Statement("update " + "commandedocument" + " set idsuivi = " + Marker("idsuivi")
              + " where id = " + Marker("id") + ";",
              [("id", Text(id)), ("idsuivi", idsuivi)])
  }

  function EtatStatement(id: string, numero: string, idetat: Value): Statement {
    Statement("update " + "exemplaire set " + "idetat = " + Marker("idetat")
              + " where id = " + Marker("id") + " AND numero = " + Marker("numero") + ";",
              [("id", Text(id)), ("numero", Text(numero)), ("idetat", idetat)])
  }

  // What each handler does, as events and a reply. A payload or identifier
  // that is `null` where the handler declares `array` or `string` is a
  // `TypeError` raised before its body runs.

  function InsertRevueRun(u: UpdateOracle, at: nat, champs: Option<FieldMap>): Run<int> {
    if champs.None? then TypeError()
    else Transaction(u, at, InsertRevuePlan(champs.value), AllOrNothing(false))
  }

  /** Unlike its siblings, `insertLivre` rethrows after rolling back. */
  function InsertLivreRun(u: UpdateOracle, at: nat, champs: Option<FieldMap>): Run<int> {
    if champs.None? then TypeError()
    else Transaction(u, at, InsertLivrePlan(champs.value), AllOrNothing(true))
  }

  function InsertDvdRun(u: UpdateOracle, at: nat, champs: Option<FieldMap>): Run<int> {
    if champs.None? then TypeError()
    else Transaction(u, at, InsertDvdPlan(champs.value), AllOrNothing(false))
  }

  /** The answer to the `commande` insert is discarded: the transaction
      commits unless an exception occurs and returns the order line's answer. */
  function InsertCommandeDocumentRun(u: UpdateOracle, at: nat, champs: Option<FieldMap>): Run<int> {
    if champs.None? then TypeError()
    else Transaction(u, at, InsertCommandeDocumentPlan(champs.value), CommitUnlessRaised)
  }

  function InsertAbonnementRun(u: UpdateOracle, at: nat, champs: Option<FieldMap>): Run<int> {
    if champs.None? then TypeError()
    else Transaction(u, at, InsertAbonnementPlan(champs.value), CommitUnlessRaised)
  }

  function UpdateLivreRun(u: UpdateOracle, at: nat, id: Option<string>, champs: Option<FieldMap>): Run<int> {
    if id.None? || champs.None? then TypeError()
    else Transaction(u, at, UpdateLivrePlan(id.value, champs.value), AllOrNothing(false))
  }

  function UpdateDvdRun(u: UpdateOracle, at: nat, id: Option<string>, champs: Option<FieldMap>): Run<int> {
    if id.None? || champs.None? then TypeError()
    else Transaction(u, at, UpdateDvdPlan(id.value, champs.value), AllOrNothing(false))
  }

  function UpdateRevueRun(u: UpdateOracle, at: nat, id: Option<string>, champs: Option<FieldMap>): Run<int> {
    if id.None? || champs.None? then TypeError()
    else Transaction(u, at, UpdateRevuePlan(id.value, champs.value), AllOrNothing(false))
  }

  /** The deletes take the identifier from the payload (`null` when the
      payload is null or does not set `id`), refuse a missing one, and commit
      whatever the intermediate deletes answer. */
  function DeleteByIdRun(u: UpdateOracle, at: nat, champs: Option<FieldMap>, plan: string -> seq<Statement>): Run<int>
    requires forall id :: |plan(id)| > 0
  {
    var id := Field(champs, "id");
    if id.Null? then Refused()
    else Transaction(u, at, plan(id.s), CommitUnlessRaised)
  }

  function DeleteLivreRun(u: UpdateOracle, at: nat, champs: Option<FieldMap>): Run<int> {
    DeleteByIdRun(u, at, champs, DeleteLivrePlan)
  }

  function DeleteDvdRun(u: UpdateOracle, at: nat, champs: Option<FieldMap>): Run<int> {
    DeleteByIdRun(u, at, champs, DeleteDvdPlan)
  }

  function DeleteRevueRun(u: UpdateOracle, at: nat, champs: Option<FieldMap>): Run<int> {
    DeleteByIdRun(u, at, champs, DeleteRevuePlan)
  }

  function DeleteCommandeRun(u: UpdateOracle, at: nat, champs: Option<FieldMap>): Run<int> {
    DeleteByIdRun(u, at, champs, DeleteCommandePlan)
  }

  function DeleteExemplaireRun(u: UpdateOracle, at: nat, champs: Option<FieldMap>): Run<int> {
    var id, numero := Field(champs, "id"), Field(champs, "numero");
    if id.Null? then Refused()
    else Transaction(u, at, [DeleteExemplaireStatement(id.s, numero)], CommitUnlessRaised)
  }

  /** `updateSuiviCommande`: no transaction; refused unless `idsuivi` is set. */
  function UpdateSuiviCommandeRun(u: UpdateOracle, at: nat, id: Option<string>, champs: Option<FieldMap>): Run<int> {
    if id.None? || champs.None? then TypeError()
    else if !IsSet(champs.value, "idsuivi") then Refused()
    else Tell(u, at, SuiviStatement(id.value, Get(champs.value, "idsuivi")))
  }

  /** `updateEtatExemplaire`: no transaction; refused unless `idetat` is set. */
  function UpdateEtatExemplaireRun(u: UpdateOracle, at: nat, id: Option<string>, numero: Value, champs: Option<FieldMap>): Run<int> {
    if id.None? || numero.Null? || champs.None? then TypeError()
    else if !IsSet(champs.value, "idetat") then Refused()
    else Tell(u, at, EtatStatement(id.value, numero.s, Get(champs.value, "idetat")))
  }

  // Properties of the plans.

  /** A projection binds every listed column to the payload's value. */
  lemma ProjectGet(c: FieldMap, ks: ColumnList, k: string)
    requires k in ks
    ensures Get(Project(c, ks), k) == Get(c, k)
  {
    var r := Project(c, ks);
    var i :| 0 <= i < |ks| && ks[i] == k;
    assert Keys(r)[i] == r[i].0;
  }

  // Every statement of a composite insert binds the payload's `id`: the
  // document and the rows that specialise it share one identifier.

  lemma InsertRevueSharesId(c: FieldMap)
    ensures var p := InsertRevuePlan(c);
      Get(p[0].params, "id") == Get(c, "id") && Get(p[1].params, "id") == Get(c, "id")
  {
    ProjectGet(c, DocumentColumns, "id");
    ProjectGet(c, RevueColumns, "id");
  }

  lemma InsertLivreSharesId(c: FieldMap)
    ensures var p := InsertLivrePlan(c);
      && Get(p[0].params, "id") == Get(c, "id") && Get(p[1].params, "id") == Get(c, "id")
      && Get(p[2].params, "id") == Get(c, "id")
  {
    ProjectGet(c, DocumentColumns, "id");
    ProjectGet(c, LivresDvdColumns, "id");
    ProjectGet(c, LivreColumns, "id");
  }

  lemma InsertDvdSharesId(c: FieldMap)
    ensures var p := InsertDvdPlan(c);
      && Get(p[0].params, "id") == Get(c, "id") && Get(p[1].params, "id") == Get(c, "id")
      && Get(p[2].params, "id") == Get(c, "id")
  {
    ProjectGet(c, DocumentColumns, "id");
    ProjectGet(c, LivresDvdColumns, "id");
    ProjectGet(c, DvdColumns, "id");
  }

  lemma InsertAbonnementSharesId(c: FieldMap)
    ensures var p := InsertAbonnementPlan(c);
      Get(p[0].params, "id") == Get(c, "id") && Get(p[1].params, "id") == Get(c, "id")
  {
    ProjectGet(c, CommandeColumns, "id");
    ProjectGet(c, AbonnementColumns, "id");
  }

  lemma InsertCommandeDocumentSharesId(c: FieldMap)
    ensures var p := InsertCommandeDocumentPlan(c);
      Get(p[0].params, "id") == Get(c, "id") && Get(p[1].params, "id") == Get(c, "id")
  {
    ProjectGet(c, CommandeColumns, "id");
    OrderLineColumns(c);
  }

  /** The order line binds the payload's `id`, `nbExemplaire` and `idLivreDvd`,
      then `idsuivi` to the initial stage `00001`, whatever the payload says
      about it. */
  lemma OrderLineColumns(c: FieldMap)
    ensures Keys(OrderLine(c)) == CommandeDocumentColumns + ["idsuivi"]
    ensures forall k :: k in CommandeDocumentColumns ==> Get(OrderLine(c), k) == Get(c, k)
    ensures Get(OrderLine(c), "idsuivi") == Text(InitialSuivi)
  {
    var base := Project(c, CommandeDocumentColumns);
    PutKeys(base, "idsuivi", Text(InitialSuivi));
    PutValues(base, "idsuivi", Text(InitialSuivi));
    forall k | k in CommandeDocumentColumns ensures Get(OrderLine(c), k) == Get(c, k) {
      ProjectGet(c, CommandeDocumentColumns, k);
    }
  }

  // Every statement of a composite update binds the identifier argument to
  // `id`, whatever the payload holds under `id`.

  lemma UpdateLivreBindsId(id: string, c: FieldMap)
    ensures var p := UpdateLivrePlan(id, c);
      Get(p[0].params, "id") == Text(id) && Get(p[1].params, "id") == Text(id)
  {
  }

  lemma UpdateDvdBindsId(id: string, c: FieldMap)
    ensures var p := UpdateDvdPlan(id, c);
      Get(p[0].params, "id") == Text(id) && Get(p[1].params, "id") == Text(id)
  {
  }

  lemma UpdateRevueBindsId(id: string, c: FieldMap)
    ensures var p := UpdateRevuePlan(id, c);
      Get(p[0].params, "id") == Text(id) && Get(p[1].params, "id") == Text(id)
  {
  }

  /** The deletes of a document remove the rows that specialise it first and
      the document row last, each bound to the one identifier. */
  lemma DeletePlansOrder(id: string)
    ensures DeleteLivrePlan(id)[2] == DeleteById("document", id)
    ensures DeleteDvdPlan(id)[2] == DeleteById("document", id)
    ensures DeleteRevuePlan(id)[1] == DeleteById("document", id)
    ensures DeleteById("document", id).params == [("id", Text(id))]
  {
  }

  // Every statement the composites send binds exactly the parameters its
  // text refers to. The plans are built from three shapes: a delete by `id`
  // (below), an insert or an update of projected columns (a projection's keys
  // are its column list, so `Builders.InsertWellBound` and
  // `Builders.UpdateWellBound` apply), each well bound for every table and
  // column list made of names.

  lemma DeleteByIdWellBound(t: string, id: string)
    requires IsName(t)
    ensures Placeholders(DeleteById(t, id).sql) == ["id"]
    ensures WellBound(DeleteById(t, id))
  {
    PrefixHasNoColon("delete from ", t, " where id=");
    TrailingMarker("delete from " + t + " where id=", "id");
    InOrderIsWellBound(DeleteById(t, id));
  }

  // The tables and column lists the plans use are plain names, one lemma per
  // entity.

  lemma DocumentNamesArePlain()
    ensures IsName("document") && AllNames(DocumentColumns) && AllNames(DocumentUpdateColumns)
  {
    assert DocumentUpdateColumns == DocumentColumns[1..];
  }

  lemma RevueNamesArePlain()
    ensures IsName("revue") && AllNames(RevueColumns) && AllNames(RevueUpdateColumns)
  {
    assert RevueUpdateColumns == RevueColumns[1..];
  }

  lemma LivreNamesArePlain()
    ensures IsName("livres_dvd") && AllNames(LivresDvdColumns)
    ensures IsName("livre") && AllNames(LivreColumns) && AllNames(LivreUpdateColumns)
  {
    assert LivreUpdateColumns == LivreColumns[1..];
  }

  lemma DvdNamesArePlain()
    ensures IsName("dvd") && AllNames(DvdColumns) && AllNames(DvdUpdateColumns)
  {
    assert DvdUpdateColumns == DvdColumns[1..];
  }

  lemma CommandeNamesArePlain()
    ensures IsName("commande") && AllNames(CommandeColumns)
    ensures IsName("commandedocument") && AllNames(CommandeDocumentColumns + ["idsuivi"])
  {
  }

  lemma AbonnementNamesArePlain()
    ensures IsName("abonnement") && AllNames(AbonnementColumns)
  {
  }

  /** Every statement of the plan binds exactly the parameters it refers to. */
  ghost predicate PlanWellBound(plan: seq<Statement>) {
    forall i :: 0 <= i < |plan| ==> WellBound(plan[i])
  }

  lemma PairWellBound(a: Statement, b: Statement)
    requires WellBound(a) && WellBound(b)
    ensures PlanWellBound([a, b])
  {
  }

  lemma TripleWellBound(a: Statement, b: Statement, d: Statement)
    requires WellBound(a) && WellBound(b) && WellBound(d)
    ensures PlanWellBound([a, b, d])
  {
  }

  /** A projection's keys are its column list, so the generic insert and
      update are well bound on it whenever the table and columns are names. */
  lemma ProjectedInsertWellBound(t: string, c: FieldMap, cols: ColumnList)
    requires IsName(t) && AllNames(cols)
    ensures WellBound(InsertStatement(t, Project(c, cols)))
  {
    InsertWellBound(t, Project(c, cols));
  }

  lemma ProjectedUpdateWellBound(t: string, id: string, c: FieldMap, cols: ColumnList)
    requires IsName(t) && AllNames(cols)
    ensures WellBound(UpdateStatement(t, id, Project(c, cols)))
  {
    UpdateWellBound(t, id, Project(c, cols));
  }

  // Each composite handler sends only well-bound statements.

  lemma InsertRevueWellBound(c: FieldMap)
    ensures PlanWellBound(InsertRevuePlan(c))
  {
    DocumentNamesArePlain();
    RevueNamesArePlain();
    ProjectedInsertWellBound("document", c, DocumentColumns);
    ProjectedInsertWellBound("revue", c, RevueColumns);
    PairWellBound(InsertStatement("document", Project(c, DocumentColumns)),
      InsertStatement("revue", Project(c, RevueColumns)));
  }

  lemma InsertLivreWellBound(c: FieldMap)
    ensures PlanWellBound(InsertLivrePlan(c))
  {
    DocumentNamesArePlain();
    LivreNamesArePlain();
    ProjectedInsertWellBound("document", c, DocumentColumns);
    ProjectedInsertWellBound("livres_dvd", c, LivresDvdColumns);
    ProjectedInsertWellBound("livre", c, LivreColumns);
    TripleWellBound(InsertStatement("document", Project(c, DocumentColumns)),
      InsertStatement("livres_dvd", Project(c, LivresDvdColumns)),
      InsertStatement("livre", Project(c, LivreColumns)));
  }

  lemma InsertDvdWellBound(c: FieldMap)
    ensures PlanWellBound(InsertDvdPlan(c))
  {
    DocumentNamesArePlain();
    LivreNamesArePlain();
    DvdNamesArePlain();
    ProjectedInsertWellBound("document", c, DocumentColumns);
    ProjectedInsertWellBound("livres_dvd", c, LivresDvdColumns);
    ProjectedInsertWellBound("dvd", c, DvdColumns);
    TripleWellBound(InsertStatement("document", Project(c, DocumentColumns)),
      InsertStatement("livres_dvd", Project(c, LivresDvdColumns)),
      InsertStatement("dvd", Project(c, DvdColumns)));
  }

  lemma InsertCommandeDocumentWellBound(c: FieldMap)
    ensures PlanWellBound(InsertCommandeDocumentPlan(c))
  {
    CommandeNamesArePlain();
    ProjectedInsertWellBound("commande", c, CommandeColumns);
    OrderLineColumns(c);
    InsertWellBound("commandedocument", OrderLine(c));
    PairWellBound(InsertStatement("commande", Project(c, CommandeColumns)),
      InsertStatement("commandedocument", OrderLine(c)));
  }

  lemma InsertAbonnementWellBound(c: FieldMap)
    ensures PlanWellBound(InsertAbonnementPlan(c))
  {
    CommandeNamesArePlain();
    AbonnementNamesArePlain();
    ProjectedInsertWellBound("commande", c, CommandeColumns);
    ProjectedInsertWellBound("abonnement", c, AbonnementColumns);
    PairWellBound(InsertStatement("commande", Project(c, CommandeColumns)),
      InsertStatement("abonnement", Project(c, AbonnementColumns)));
  }

  lemma UpdateLivreWellBound(id: string, c: FieldMap)
    ensures PlanWellBound(UpdateLivrePlan(id, c))
  {
    DocumentNamesArePlain();
    LivreNamesArePlain();
    ProjectedUpdateWellBound("document", id, c, DocumentUpdateColumns);
    ProjectedUpdateWellBound("livre", id, c, LivreUpdateColumns);
    PairWellBound(UpdateStatement("document", id, Project(c, DocumentUpdateColumns)),
      UpdateStatement("livre", id, Project(c, LivreUpdateColumns)));
  }

  lemma UpdateDvdWellBound(id: string, c: FieldMap)
    ensures PlanWellBound(UpdateDvdPlan(id, c))
  {
    DocumentNamesArePlain();
    DvdNamesArePlain();
    ProjectedUpdateWellBound("document", id, c, DocumentUpdateColumns);
    ProjectedUpdateWellBound("dvd", id, c, DvdUpdateColumns);
    PairWellBound(UpdateStatement("document", id, Project(c, DocumentUpdateColumns)),
      UpdateStatement("dvd", id, Project(c, DvdUpdateColumns)));
  }

  lemma UpdateRevueWellBound(id: string, c: FieldMap)
    ensures PlanWellBound(UpdateRevuePlan(id, c))
  {
    DocumentNamesArePlain();
    RevueNamesArePlain();
    ProjectedUpdateWellBound("document", id, c, DocumentUpdateColumns);
    ProjectedUpdateWellBound("revue", id, c, RevueUpdateColumns);
    PairWellBound(UpdateStatement("document", id, Project(c, DocumentUpdateColumns)),
      UpdateStatement("revue", id, Project(c, RevueUpdateColumns)));
  }

  lemma DeleteLivreWellBound(id: string)
    ensures PlanWellBound(DeleteLivrePlan(id))
  {
    LivreNamesArePlain();
    DocumentNamesArePlain();
    DeleteByIdWellBound("livre", id);
    DeleteByIdWellBound("livres_dvd", id);
    DeleteByIdWellBound("document", id);
    TripleWellBound(DeleteById("livre", id),
      DeleteById("livres_dvd", id),
      DeleteById("document", id));
  }

  lemma DeleteDvdWellBound(id: string)
    ensures PlanWellBound(DeleteDvdPlan(id))
  {
    DvdNamesArePlain();
    LivreNamesArePlain();
    DocumentNamesArePlain();
    DeleteByIdWellBound("dvd", id);
    DeleteByIdWellBound("livres_dvd", id);
    DeleteByIdWellBound("document", id);
    TripleWellBound(DeleteById("dvd", id),
      DeleteById("livres_dvd", id),
      DeleteById("document", id));
  }

  lemma DeleteRevueWellBound(id: string)
    ensures PlanWellBound(DeleteRevuePlan(id))
  {
    RevueNamesArePlain();
    DocumentNamesArePlain();
    DeleteByIdWellBound("revue", id);
    DeleteByIdWellBound("document", id);
    PairWellBound(DeleteById("revue", id),
      DeleteById("document", id));
  }

  lemma DeleteCommandeWellBound(id: string)
    ensures PlanWellBound(DeleteCommandePlan(id))
  {
    CommandeNamesArePlain();
    DeleteByIdWellBound("commande", id);
  }

  /** The copy delete refers to `id` and `numero`, in that order. */
  lemma DeleteExemplaireWellBound(id: string, numero: Value)
    ensures Placeholders(DeleteExemplaireStatement(id, numero).sql) == ["id", "numero"]
    ensures WellBound(DeleteExemplaireStatement(id, numero))
  {
    var lead := "delete from " + "exemplaire " + "where id=";
    assert ':' !in lead;
    TrailingMarker(lead, "id");
    TrailingMarker(" AND numero=", "numero");
    PlaceholdersAppend(lead + Marker("id"), " AND numero=" + Marker("numero"));
    assert DeleteExemplaireStatement(id, numero).sql == (lead + Marker("id")) + (" AND numero=" + Marker("numero"));
    InOrderIsWellBound(DeleteExemplaireStatement(id, numero));
  }

  /** The `set` part of each narrow update refers to the one column it sets. */
  lemma NarrowUpdateSetPlaceholders()
    ensures Placeholders("update " + "commandedocument" + " set idsuivi = " + Marker("idsuivi")) == ["idsuivi"]
    ensures Placeholders("update " + "exemplaire set " + "idetat = " + Marker("idetat")) == ["idetat"]
  {
    assert ':' !in "update " + "commandedocument" + " set idsuivi = ";
    TrailingMarker("update " + "commandedocument" + " set idsuivi = ", "idsuivi");
    assert ':' !in "update " + "exemplaire set " + "idetat = ";
    TrailingMarker("update " + "exemplaire set " + "idetat = ", "idetat");
  }

  /** The stage update refers to `idsuivi` then `id`; both are bound. */
  lemma SuiviWellBound(id: string, idsuivi: Value)
    ensures Placeholders(SuiviStatement(id, idsuivi).sql) == ["idsuivi", "id"]
    ensures WellBound(SuiviStatement(id, idsuivi))
  {
    var a := "update " + "commandedocument" + " set idsuivi = " + Marker("idsuivi");
    NarrowUpdateSetPlaceholders();
    var b := " where id = " + Marker("id") + ";";
    LoneMarker(" where id = ", "id", ";");
    PlaceholdersAppend(a, b);
    var st := SuiviStatement(id, idsuivi);
    assert st.sql == a + b;
    assert Keys(st.params) == ["id", "idsuivi"];
  }

  lemma EtatWherePlaceholders()
    ensures Placeholders(" where id = " + Marker("id") + " AND numero = " + Marker("numero") + ";") == ["id", "numero"]
  {
    TrailingMarker(" where id = ", "id");
    LoneMarker(" AND numero = ", "numero", ";");
    PlaceholdersAppend(" where id = " + Marker("id"), " AND numero = " + Marker("numero") + ";");
    assert " where id = " + Marker("id") + " AND numero = " + Marker("numero") + ";"
        == (" where id = " + Marker("id")) + (" AND numero = " + Marker("numero") + ";");
  }

  /** The state update refers to `idetat`, `id` then `numero`; all are bound. */
  lemma EtatWellBound(id: string, numero: string, idetat: Value)
    ensures Placeholders(EtatStatement(id, numero, idetat).sql) == ["idetat", "id", "numero"]
    ensures WellBound(EtatStatement(id, numero, idetat))
  {
    var a := "update " + "exemplaire set " + "idetat = " + Marker("idetat");
    NarrowUpdateSetPlaceholders();
    var b := " where id = " + Marker("id") + " AND numero = " + Marker("numero") + ";";
    EtatWherePlaceholders();
    PlaceholdersAppend(a, b);
    var st := EtatStatement(id, numero, idetat);
    assert st.sql == a + b;
    var ks := Keys(st.params);
    assert ks == ["id", "numero", "idetat"];
    forall k ensures k in Placeholders(st.sql) <==> k in ks {
      assert k in ["idetat", "id", "numero"] <==> k == "idetat" || k == "id" || k == "numero";
    }
  }

  // What the handlers decide.

  /** The answer each statement of a plan gets when the transaction begins at
      trace position `at`: the statements are sent from `at + 1`. */
  function Answers(u: UpdateOracle, at: nat, steps: seq<Statement>): (a: seq<Reply<int>>)
    ensures |a| == |steps|
    ensures forall i :: 0 <= i < |steps| ==> a[i] == u(at + 1 + i, steps[i])
  {
    seq(|steps|, i requires 0 <= i < |steps| => u(at + 1 + i, steps[i]))
  }

  /** The run ended with a commit. */
  predicate Committed(r: Run<int>) {
    |r.events| > 0 && r.events[|r.events| - 1] == Commit
  }

  /** A handler declared with an `array` parameter raises a `TypeError` on a
      null payload, before anything is sent. */
  lemma InsertGuards(u: UpdateOracle, at: nat)
    ensures && InsertRevueRun(u, at, None) == TypeError() && InsertLivreRun(u, at, None) == TypeError()
      && InsertDvdRun(u, at, None) == TypeError() && InsertCommandeDocumentRun(u, at, None) == TypeError()
      && InsertAbonnementRun(u, at, None) == TypeError()
  {
  }

  lemma UpdateGuards(u: UpdateOracle, at: nat, id: Option<string>, champs: Option<FieldMap>)
    requires id.None? || champs.None?
    ensures && UpdateLivreRun(u, at, id, champs) == TypeError() && UpdateDvdRun(u, at, id, champs) == TypeError()
      && UpdateRevueRun(u, at, id, champs) == TypeError()
  {
  }

  /** The deletes send nothing and return null exactly when the payload is null
      or does not set `id`. */
  lemma DeleteGuards(u: UpdateOracle, at: nat, champs: Option<FieldMap>)
    ensures (DeleteLivreRun(u, at, champs) == Refused()) <==> Field(champs, "id").Null?
    ensures (DeleteDvdRun(u, at, champs) == Refused()) <==> Field(champs, "id").Null?
    ensures (DeleteRevueRun(u, at, champs) == Refused()) <==> Field(champs, "id").Null?
    ensures (DeleteCommandeRun(u, at, champs) == Refused()) <==> Field(champs, "id").Null?
    ensures (DeleteExemplaireRun(u, at, champs) == Refused()) <==> Field(champs, "id").Null?
  {
  }

  /** The narrow updates send nothing and return null when the column they
      change is not set, and raise a `TypeError` on a null argument. */
  lemma NarrowUpdateGuards(u: UpdateOracle, at: nat, id: Option<string>, numero: Value, champs: Option<FieldMap>)
    ensures id.None? || champs.None? ==> UpdateSuiviCommandeRun(u, at, id, champs) == TypeError()
    ensures id.Some? && champs.Some? ==>
      (UpdateSuiviCommandeRun(u, at, id, champs) == Refused() <==> !IsSet(champs.value, "idsuivi"))
    ensures id.None? || numero.Null? || champs.None? ==> UpdateEtatExemplaireRun(u, at, id, numero, champs) == TypeError()
    ensures id.Some? && numero.Text? && champs.Some? ==>
      (UpdateEtatExemplaireRun(u, at, id, numero, champs) == Refused() <==> !IsSet(champs.value, "idetat"))
  {
  }

  /** The all-or-nothing decision on a plan of two statements. */
  lemma AllOrNothingTwo(u: UpdateOracle, at: nat, steps: seq<Statement>)
    requires |steps| == 2
    ensures var r := Transaction(u, at, steps, AllOrNothing(false));
      var a := Answers(u, at, steps);
      && (Committed(r) <==> a[0].Returned? && a[1].Returned?)
      && r.reply == if Committed(r) then Returned(1) else ReturnedNull
  {
    AllOrNothingDecision(u, at, steps, false);
    var a := Answers(u, at, steps);
    assert a[0] == u(at + 1 + 0, steps[0]) && a[1] == u(at + 1 + 1, steps[1]);
  }

  /** The all-or-nothing decision on a plan of three statements; with
      `rethrow`, an exception from any statement sent propagates. */
  lemma AllOrNothingThree(u: UpdateOracle, at: nat, steps: seq<Statement>, rethrow: bool)
    requires |steps| == 3
    ensures var r := Transaction(u, at, steps, AllOrNothing(rethrow));
      var a := Answers(u, at, steps);
      && (Committed(r) <==> a[0].Returned? && a[1].Returned? && a[2].Returned?)
      && r.reply == if Committed(r) then Returned(1)
                    else if rethrow && (a[0].Raised? || a[1].Raised? || a[2].Raised?) then Raised
                    else ReturnedNull
  {
    AllOrNothingDecision(u, at, steps, rethrow);
    var a := Answers(u, at, steps);
    assert a[0] == u(at + 1 + 0, steps[0]) && a[1] == u(at + 1 + 1, steps[1]) && a[2] == u(at + 1 + 2, steps[2]);
  }

  /** Commit unless a statement raises, and return the last answer. */
  lemma CommitUnlessRaisedOutcome(u: UpdateOracle, at: nat, steps: seq<Statement>)
    requires |steps| > 0
    ensures var r := Transaction(u, at, steps, CommitUnlessRaised);
      var a := Answers(u, at, steps);
      && (Committed(r) <==> forall i :: 0 <= i < |steps| ==> !a[i].Raised?)
      && r.reply == if Committed(r) then a[|steps| - 1] else ReturnedNull
  {
    CommitUnlessRaisedDecision(u, at, steps);
    var a := Answers(u, at, steps);
    assert a[|steps| - 1] == u(at + 1 + (|steps| - 1), steps[|steps| - 1]);
  }

  lemma CommitUnlessRaisedTwo(u: UpdateOracle, at: nat, steps: seq<Statement>)
    requires |steps| == 2
    ensures var r := Transaction(u, at, steps, CommitUnlessRaised);
      var a := Answers(u, at, steps);
      && (Committed(r) <==> !a[0].Raised? && !a[1].Raised?)
      && r.reply == if Committed(r) then a[1] else ReturnedNull
  {
    CommitUnlessRaisedOutcome(u, at, steps);
    var a := Answers(u, at, steps);
    assert (forall i :: 0 <= i < |steps| ==> !a[i].Raised?) <==> !a[0].Raised? && !a[1].Raised?;
  }

  lemma CommitUnlessRaisedThree(u: UpdateOracle, at: nat, steps: seq<Statement>)
    requires |steps| == 3
    ensures var r := Transaction(u, at, steps, CommitUnlessRaised);
      var a := Answers(u, at, steps);
      && (Committed(r) <==> !a[0].Raised? && !a[1].Raised? && !a[2].Raised?)
      && r.reply == if Committed(r) then a[2] else ReturnedNull
  {
    CommitUnlessRaisedOutcome(u, at, steps);
    var a := Answers(u, at, steps);
    assert (forall i :: 0 <= i < |steps| ==> !a[i].Raised?) <==> !a[0].Raised? && !a[1].Raised? && !a[2].Raised?;
  }

  // The decision of each handler, in terms of the answers of its statements.

  /** `insertRevue` commits exactly when both inserts answer with a count, and
      then returns 1; otherwise it rolls back and returns null, an exception
      included. */
  lemma InsertRevueOutcome(u: UpdateOracle, at: nat, c: FieldMap)
    ensures var r := InsertRevueRun(u, at, Some(c));
      var a := Answers(u, at, InsertRevuePlan(c));
      && (Committed(r) <==> a[0].Returned? && a[1].Returned?)
      && r.reply == if Committed(r) then Returned(1) else ReturnedNull
  {
    AllOrNothingTwo(u, at, InsertRevuePlan(c));
  }

  lemma InsertDvdOutcome(u: UpdateOracle, at: nat, c: FieldMap)
    ensures var r := InsertDvdRun(u, at, Some(c));
      var a := Answers(u, at, InsertDvdPlan(c));
      && (Committed(r) <==> a[0].Returned? && a[1].Returned? && a[2].Returned?)
      && r.reply == if Committed(r) then Returned(1) else ReturnedNull
  {
    AllOrNothingThree(u, at, InsertDvdPlan(c), false);
  }

  /** `insertLivre` decides like `insertDvd`, except that an exception from any
      statement sent propagates to the caller after the rollback. */
  lemma InsertLivreOutcome(u: UpdateOracle, at: nat, c: FieldMap)
    ensures var r := InsertLivreRun(u, at, Some(c));
      var a := Answers(u, at, InsertLivrePlan(c));
      && (Committed(r) <==> a[0].Returned? && a[1].Returned? && a[2].Returned?)
      && r.reply == if Committed(r) then Returned(1)
                    else if a[0].Raised? || a[1].Raised? || a[2].Raised? then Raised
                    else ReturnedNull
  {
    AllOrNothingThree(u, at, InsertLivrePlan(c), true);
  }

  lemma UpdateLivreOutcome(u: UpdateOracle, at: nat, id: string, c: FieldMap)
    ensures var r := UpdateLivreRun(u, at, Some(id), Some(c));
      var a := Answers(u, at, UpdateLivrePlan(id, c));
      && (Committed(r) <==> a[0].Returned? && a[1].Returned?)
      && r.reply == if Committed(r) then Returned(1) else ReturnedNull
  {
    AllOrNothingTwo(u, at, UpdateLivrePlan(id, c));
  }

  lemma UpdateDvdOutcome(u: UpdateOracle, at: nat, id: string, c: FieldMap)
    ensures var r := UpdateDvdRun(u, at, Some(id), Some(c));
      var a := Answers(u, at, UpdateDvdPlan(id, c));
      && (Committed(r) <==> a[0].Returned? && a[1].Returned?)
      && r.reply == if Committed(r) then Returned(1) else ReturnedNull
  {
    AllOrNothingTwo(u, at, UpdateDvdPlan(id, c));
  }

  lemma UpdateRevueOutcome(u: UpdateOracle, at: nat, id: string, c: FieldMap)
    ensures var r := UpdateRevueRun(u, at, Some(id), Some(c));
      var a := Answers(u, at, UpdateRevuePlan(id, c));
      && (Committed(r) <==> a[0].Returned? && a[1].Returned?)
      && r.reply == if Committed(r) then Returned(1) else ReturnedNull
  {
    AllOrNothingTwo(u, at, UpdateRevuePlan(id, c));
  }

  /** `insertCommandeDocument` commits even when the `commande` insert answers
      null, and returns the order line's answer. */
  lemma InsertCommandeDocumentOutcome(u: UpdateOracle, at: nat, c: FieldMap)
    ensures var r := InsertCommandeDocumentRun(u, at, Some(c));
      var a := Answers(u, at, InsertCommandeDocumentPlan(c));
      && (Committed(r) <==> !a[0].Raised? && !a[1].Raised?)
      && r.reply == if Committed(r) then a[1] else ReturnedNull
  {
    CommitUnlessRaisedTwo(u, at, InsertCommandeDocumentPlan(c));
  }

  lemma InsertAbonnementOutcome(u: UpdateOracle, at: nat, c: FieldMap)
    ensures var r := InsertAbonnementRun(u, at, Some(c));
      var a := Answers(u, at, InsertAbonnementPlan(c));
      && (Committed(r) <==> !a[0].Raised? && !a[1].Raised?)
      && r.reply == if Committed(r) then a[1] else ReturnedNull
  {
    CommitUnlessRaisedTwo(u, at, InsertAbonnementPlan(c));
  }

  /** `deleteLivre` commits unless a delete raises, whatever the `livre` and
      `livres_dvd` deletes answer, and returns the `document` delete's answer. */
  lemma DeleteLivreOutcome(u: UpdateOracle, at: nat, id: string, c: FieldMap)
    requires Get(c, "id") == Text(id)
    ensures var r := DeleteLivreRun(u, at, Some(c));
      var a := Answers(u, at, DeleteLivrePlan(id));
      && (Committed(r) <==> !a[0].Raised? && !a[1].Raised? && !a[2].Raised?)
      && r.reply == if Committed(r) then a[2] else ReturnedNull
  {
    CommitUnlessRaisedThree(u, at, DeleteLivrePlan(id));
  }

  lemma DeleteDvdOutcome(u: UpdateOracle, at: nat, id: string, c: FieldMap)
    requires Get(c, "id") == Text(id)
    ensures var r := DeleteDvdRun(u, at, Some(c));
      var a := Answers(u, at, DeleteDvdPlan(id));
      && (Committed(r) <==> !a[0].Raised? && !a[1].Raised? && !a[2].Raised?)
      && r.reply == if Committed(r) then a[2] else ReturnedNull
  {
    CommitUnlessRaisedThree(u, at, DeleteDvdPlan(id));
  }

  lemma DeleteRevueOutcome(u: UpdateOracle, at: nat, id: string, c: FieldMap)
    requires Get(c, "id") == Text(id)
    ensures var r := DeleteRevueRun(u, at, Some(c));
      var a := Answers(u, at, DeleteRevuePlan(id));
      && (Committed(r) <==> !a[0].Raised? && !a[1].Raised?)
      && r.reply == if Committed(r) then a[1] else ReturnedNull
  {
    CommitUnlessRaisedTwo(u, at, DeleteRevuePlan(id));
  }

  lemma DeleteCommandeOutcome(u: UpdateOracle, at: nat, id: string, c: FieldMap)
    requires Get(c, "id") == Text(id)
    ensures var r := DeleteCommandeRun(u, at, Some(c));
      var a := Answers(u, at, DeleteCommandePlan(id));
      && (Committed(r) <==> !a[0].Raised?)
      && r.reply == if Committed(r) then a[0] else ReturnedNull
  {
    CommitUnlessRaisedOutcome(u, at, DeleteCommandePlan(id));
  }

  /** `deleteExemplaire` binds `numero` as the payload holds it, null when
      missing, and commits unless the delete raises. */
  lemma DeleteExemplaireOutcome(u: UpdateOracle, at: nat, id: string, c: FieldMap)
    requires Get(c, "id") == Text(id)
    ensures var r := DeleteExemplaireRun(u, at, Some(c));
      var st := DeleteExemplaireStatement(id, Get(c, "numero"));
      && r.events[1] == Update(st, u(at + 1, st))
      && (Committed(r) <==> !u(at + 1, st).Raised?)
      && r.reply == if Committed(r) then u(at + 1, st) else ReturnedNull
  {
    var st := DeleteExemplaireStatement(id, Get(c, "numero"));
    assert DeleteExemplaireRun(u, at, Some(c)) == Transaction(u, at, [st], CommitUnlessRaised);
    CommitUnlessRaisedOutcome(u, at, [st]);
  }

  /** `updateSuiviCommande` sends one statement outside any transaction, bound
      to the order and its new stage, and returns its answer as is. */
  lemma UpdateSuiviCommandeOutcome(u: UpdateOracle, at: nat, id: string, c: FieldMap)
    requires IsSet(c, "idsuivi")
    ensures var r := UpdateSuiviCommandeRun(u, at, Some(id), Some(c));
      && |r.events| == 1 && r.events[0].Update?
      && r.events[0].st.params == [("id", Text(id)), ("idsuivi", Get(c, "idsuivi"))]
      && r.reply == u(at, r.events[0].st)
  {
  }

  /** `updateEtatExemplaire` sends one statement outside any transaction, bound
      to the copy's key and its new state, and returns its answer as is. */
  lemma UpdateEtatExemplaireOutcome(u: UpdateOracle, at: nat, id: string, numero: string, c: FieldMap)
    requires IsSet(c, "idetat")
    ensures var r := UpdateEtatExemplaireRun(u, at, Some(id), Text(numero), Some(c));
      && |r.events| == 1 && r.events[0].Update?
      && r.events[0].st.params == [("id", Text(id)), ("numero", Text(numero)), ("idetat", Get(c, "idetat"))]
      && r.reply == u(at, r.events[0].st)
  {
  }
}
