/** The four `traitement*` entry points of `MyAccessBDD`: each chooses, from
    the table name alone, the dedicated handler of that table or the generic
    single-table builder. */
module Dispatch {
  import opened PhpArray
  import opened Connection
  import opened Builders
  import opened Transactions
  import opened Readers
  import opened Composites

  // The branches of each `switch ($table)`.

  datatype SelectRoute =
    | AllLivres | AllDvd | AllRevues | Exemplaires | Commandes | Abonnements
    | SimpleTable | Login | GenericSelect

  datatype InsertRoute =
    | InsertRevue | InsertLivre | InsertDvd | InsertCommandeDocument | InsertAbonnement
    | GenericInsert

  datatype UpdateRoute =
    | UpdateLivre | UpdateDvd | UpdateRevue | UpdateSuiviCommande | UpdateEtatExemplaire
    | GenericUpdate

  datatype DeleteRoute =
    | DeleteLivre | DeleteDvd | DeleteRevue | DeleteCommande | DeleteExemplaire
    | GenericDelete

  function SelectRouteOf(table: string): SelectRoute {
    match table
    case "livre" => AllLivres
    case "dvd" => AllDvd
    case "revue" => AllRevues
    case "exemplaire" => Exemplaires
    case "commande" => Commandes
    case "abonnement" => Abonnements
    case "genre" => SimpleTable
    case "public" => SimpleTable
    case "rayon" => SimpleTable
    case "suivi" => SimpleTable
    case "etat" => SimpleTable
    case "utilisateur" => Login
    case _ => GenericSelect
  }

  function InsertRouteOf(table: string): InsertRoute {
    match table
    case "revue" => InsertRevue
    case "livre" => InsertLivre
    case "dvd" => InsertDvd
    case "commandedocument" => InsertCommandeDocument
    case "abonnement" => InsertAbonnement
    case _ => GenericInsert
  }

  function UpdateRouteOf(table: string): UpdateRoute {
    match table
    case "livre" => UpdateLivre
    case "dvd" => UpdateDvd
    case "revue" => UpdateRevue
    case "commandedocument" => UpdateSuiviCommande
    case "exemplaire" => UpdateEtatExemplaire
    case _ => GenericUpdate
  }

  function DeleteRouteOf(table: string): DeleteRoute {
    match table
    case "livre" => DeleteLivre
    case "dvd" => DeleteDvd
    case "revue" => DeleteRevue
    case "commande" => DeleteCommande
    case "exemplaire" => DeleteExemplaire
    case _ => GenericDelete
  }

  // The tables with a dedicated handler, listed independently of the switches.

  const SelectTables: set<string> :=
    {"livre", "dvd", "revue", "exemplaire", "commande", "abonnement",
     "genre", "public", "rayon", "suivi", "etat", "utilisateur"}
  const ReferenceTables: set<string> := {"genre", "public", "rayon", "suivi", "etat"}
  const InsertTables: set<string> := {"revue", "livre", "dvd", "commandedocument", "abonnement"}
  const UpdateTables: set<string> := {"livre", "dvd", "revue", "commandedocument", "exemplaire"}
  const DeleteTables: set<string> := {"livre", "dvd", "revue", "commande", "exemplaire"}

  /** `$res ? [$res] : null` on the account `login` returns: an array is
      truthy when it is not empty. */
  function AccountRows(res: Reply<Row>): (r: Reply<seq<Row>>)
    ensures r.Returned? <==> res.Returned? && |res.value| > 0
    ensures r.Returned? ==> r.value == [res.value]
    ensures r.Raised? <==> res.Raised?
  {
    match res
    case Returned(row) => if |row| > 0 then Returned([row]) else ReturnedNull
    case ReturnedNull => ReturnedNull
    case Raised => Raised
  }

  /** `traitementSelect`. */
  function SelectRun(q: QueryOracle, verify: PasswordCheck, at: nat, table: string, champs: Option<FieldMap>): Run<seq<Row>> {
    SelectOn(SelectRouteOf(table), q, verify, at, table, champs)
  }

  /** The branch `route` of `traitementSelect`. */
  function SelectOn(route: SelectRoute, q: QueryOracle, verify: PasswordCheck, at: nat, table: string, champs: Option<FieldMap>): Run<seq<Row>> {
    match route
    case AllLivres => SelectAllLivresRun(q, at)
    case AllDvd => SelectAllDvdRun(q, at)
    case AllRevues => SelectAllRevuesRun(q, at)
    case Exemplaires => SelectExemplairesRun(q, at, champs)
    case Commandes => SelectAllCommandesRun(q, at, champs)
    case Abonnements => SelectAbonnementsRevueRun(q, at, champs)
    case SimpleTable => SelectTableSimpleRun(q, at, table)
    case Login =>
      var res := LoginRun(q, verify, at, champs);
      Run(res.events, AccountRows(res.reply))
    case GenericSelect => SelectOneTableRun(q, at, table, champs)
  }

  /** `traitementInsert`. */
  function InsertRun(u: UpdateOracle, at: nat, table: string, champs: Option<FieldMap>): Run<int> {
    InsertOn(InsertRouteOf(table), u, at, table, champs)
  }

  /** The branch `route` of `traitementInsert`. */
  function InsertOn(route: InsertRoute, u: UpdateOracle, at: nat, table: string, champs: Option<FieldMap>): Run<int> {
    match route
    case InsertRevue => InsertRevueRun(u, at, champs)
    case InsertLivre => InsertLivreRun(u, at, champs)
    case InsertDvd => InsertDvdRun(u, at, champs)
    case InsertCommandeDocument => InsertCommandeDocumentRun(u, at, champs)
    case InsertAbonnement => InsertAbonnementRun(u, at, champs)
    case GenericInsert => InsertOneTableRun(u, at, table, champs)
  }

  /** `traitementUpdate`; the copy handler receives `$champs['numero']`, null
      when the payload is null or has no `numero`. */
  function UpdateRun(u: UpdateOracle, at: nat, table: string, id: Option<string>, champs: Option<FieldMap>): Run<int> {
    UpdateOn(UpdateRouteOf(table), u, at, table, id, champs)
  }

  /** The branch `route` of `traitementUpdate`. */
  function UpdateOn(route: UpdateRoute, u: UpdateOracle, at: nat, table: string, id: Option<string>, champs: Option<FieldMap>): Run<int> {
    match route
    case UpdateLivre => UpdateLivreRun(u, at, id, champs)
    case UpdateDvd => UpdateDvdRun(u, at, id, champs)
    case UpdateRevue => UpdateRevueRun(u, at, id, champs)
    case UpdateSuiviCommande => UpdateSuiviCommandeRun(u, at, id, champs)
    case UpdateEtatExemplaire => UpdateEtatExemplaireRun(u, at, id, Field(champs, "numero"), champs)
    case GenericUpdate => UpdateOneTableRun(u, at, table, id, champs)
  }

  /** `traitementDelete`. */
  function DeleteRun(u: UpdateOracle, at: nat, table: string, champs: Option<FieldMap>): Run<int> {
    DeleteOn(DeleteRouteOf(table), u, at, table, champs)
  }

  /** The branch `route` of `traitementDelete`. */
  function DeleteOn(route: DeleteRoute, u: UpdateOracle, at: nat, table: string, champs: Option<FieldMap>): Run<int> {
    match route
    case DeleteLivre => DeleteLivreRun(u, at, champs)
    case DeleteDvd => DeleteDvdRun(u, at, champs)
    case DeleteRevue => DeleteRevueRun(u, at, champs)
    case DeleteCommande => DeleteCommandeRun(u, at, champs)
    case DeleteExemplaire => DeleteExemplaireRun(u, at, champs)
    case GenericDelete => DeleteOneTableRun(u, at, table, champs)
  }

  // Properties of the dispatch.

  /** A table falls through to the generic builder exactly when it has no
      dedicated handler; the reference tables share `selectTableSimple`. */
  lemma RoutesFallThrough(table: string)
    ensures SelectRouteOf(table) == GenericSelect <==> table !in SelectTables
    ensures SelectRouteOf(table) == SimpleTable <==> table in ReferenceTables
    ensures InsertRouteOf(table) == GenericInsert <==> table !in InsertTables
    ensures UpdateRouteOf(table) == GenericUpdate <==> table !in UpdateTables
    ensures DeleteRouteOf(table) == GenericDelete <==> table !in DeleteTables
  {
  }

  /** A table without a dedicated handler is served by the generic builder. */
  lemma GenericFallback(q: QueryOracle, u: UpdateOracle, verify: PasswordCheck, at: nat, table: string,
                        id: Option<string>, champs: Option<FieldMap>)
    ensures table !in SelectTables ==> SelectRun(q, verify, at, table, champs) == SelectOneTableRun(q, at, table, champs)
    ensures table !in InsertTables ==> InsertRun(u, at, table, champs) == InsertOneTableRun(u, at, table, champs)
    ensures table !in UpdateTables ==> UpdateRun(u, at, table, id, champs) == UpdateOneTableRun(u, at, table, id, champs)
    ensures table !in DeleteTables ==> DeleteRun(u, at, table, champs) == DeleteOneTableRun(u, at, table, champs)
  {
    RoutesFallThrough(table);
  }

  /** A select only reads: it sends at most one query and nothing else. */
  lemma SelectOnlyReads(q: QueryOracle, verify: PasswordCheck, at: nat, table: string, champs: Option<FieldMap>)
    ensures ReadShape(SelectRun(q, verify, at, table, champs).events)
  {
    RouteOnlyReads(SelectRouteOf(table), q, verify, at, table, champs);
  }

  /** What a read sends: at most one query, and nothing else. */
  ghost predicate ReadShape(events: seq<Event>) {
    |events| <= 1 && forall e :: e in events ==> e.Query?
  }

  lemma RouteOnlyReads(route: SelectRoute, q: QueryOracle, verify: PasswordCheck, at: nat, table: string, champs: Option<FieldMap>)
    ensures ReadShape(SelectOn(route, q, verify, at, table, champs).events)
  {
    match route
    case AllLivres => CatalogueReads(q, at);
    case AllDvd => CatalogueReads(q, at);
    case AllRevues => CatalogueReads(q, at);
    case SimpleTable => SimpleReads(q, at, table);
    case Exemplaires => ExemplairesReads(q, at, champs);
    case Commandes => CommandesReads(q, at, champs);
    case Abonnements => AbonnementsReads(q, at, champs);
    case Login => LoginReads(q, verify, at, champs);
    case GenericSelect => GenericReads(q, at, table, champs);
  }

  lemma CatalogueReads(q: QueryOracle, at: nat)
    ensures ReadShape(SelectAllLivresRun(q, at).events)
    ensures ReadShape(SelectAllDvdRun(q, at).events)
    ensures ReadShape(SelectAllRevuesRun(q, at).events)
  {
  }

  lemma SimpleReads(q: QueryOracle, at: nat, table: string)
    ensures ReadShape(SelectTableSimpleRun(q, at, table).events)
  {
  }

  lemma ExemplairesReads(q: QueryOracle, at: nat, champs: Option<FieldMap>)
    ensures ReadShape(SelectExemplairesRun(q, at, champs).events)
  {
  }

  lemma CommandesReads(q: QueryOracle, at: nat, champs: Option<FieldMap>)
    ensures ReadShape(SelectAllCommandesRun(q, at, champs).events)
  {
  }

  lemma AbonnementsReads(q: QueryOracle, at: nat, champs: Option<FieldMap>)
    ensures ReadShape(SelectAbonnementsRevueRun(q, at, champs).events)
  {
  }

  lemma LoginReads(q: QueryOracle, verify: PasswordCheck, at: nat, champs: Option<FieldMap>)
    ensures ReadShape(LoginRun(q, verify, at, champs).events)
  {
  }

  lemma GenericReads(q: QueryOracle, at: nat, table: string, champs: Option<FieldMap>)
    ensures ReadShape(SelectOneTableRun(q, at, table, champs).events)
  {
  }

  /** The `utilisateur` select returns the account as a one-row list, and
      `null` for an account left without any column. */
  lemma LoginSelect(q: QueryOracle, verify: PasswordCheck, at: nat, champs: Option<FieldMap>)
    ensures var run := SelectRun(q, verify, at, "utilisateur", champs);
      var res := LoginRun(q, verify, at, champs);
      && run.events == res.events
      && (run.reply.Returned? <==> res.reply.Returned? && |res.reply.value| > 0)
      && (run.reply.Returned? ==> run.reply.value == [res.reply.value])
  {
    assert SelectRouteOf("utilisateur") == Login;
  }

  /** What a write sends: nothing, one statement outside any transaction, or
      a transaction that begins, sends write statements only, and ends with
      exactly one commit or rollback. Writes never query. */
  ghost predicate WriteShape(events: seq<Event>) {
    || |events| == 0
    || (|events| == 1 && events[0].Update?)
    || (&& |events| >= 3 && events[0] == Begin
        && (events[|events| - 1] == Commit || events[|events| - 1] == Rollback)
        && forall i :: 1 <= i < |events| - 1 ==> events[i].Update?)
  }

  lemma TransactionShape(u: UpdateOracle, at: nat, steps: seq<Statement>, p: Policy)
    requires |steps| > 0
    ensures WriteShape(Transaction(u, at, steps, p).events)
  {
    TransactionBracketed(u, at, steps, p);
  }

  lemma InsertShape(u: UpdateOracle, at: nat, table: string, champs: Option<FieldMap>)
    ensures WriteShape(InsertRun(u, at, table, champs).events)
  {
    InsertRouteShape(InsertRouteOf(table), u, at, table, champs);
  }

  lemma InsertRouteShape(route: InsertRoute, u: UpdateOracle, at: nat, table: string, champs: Option<FieldMap>)
    ensures WriteShape(InsertOn(route, u, at, table, champs).events)
  {
    match route
    case InsertRevue => InsertRevueShape(u, at, champs);
    case InsertLivre => InsertLivreShape(u, at, champs);
    case InsertDvd => InsertDvdShape(u, at, champs);
    case InsertCommandeDocument => InsertCommandeDocumentShape(u, at, champs);
    case InsertAbonnement => InsertAbonnementShape(u, at, champs);
    case GenericInsert => assert InsertOn(route, u, at, table, champs) == InsertOneTableRun(u, at, table, champs);
  }

  lemma InsertRevueShape(u: UpdateOracle, at: nat, champs: Option<FieldMap>)
    ensures WriteShape(InsertRevueRun(u, at, champs).events)
  {
    if champs.Some? { TransactionShape(u, at, InsertRevuePlan(champs.value), AllOrNothing(false)); }
  }

  lemma InsertLivreShape(u: UpdateOracle, at: nat, champs: Option<FieldMap>)
    ensures WriteShape(InsertLivreRun(u, at, champs).events)
  {
    if champs.Some? { TransactionShape(u, at, InsertLivrePlan(champs.value), AllOrNothing(true)); }
  }

  lemma InsertDvdShape(u: UpdateOracle, at: nat, champs: Option<FieldMap>)
    ensures WriteShape(InsertDvdRun(u, at, champs).events)
  {
    if champs.Some? { TransactionShape(u, at, InsertDvdPlan(champs.value), AllOrNothing(false)); }
  }

  lemma InsertCommandeDocumentShape(u: UpdateOracle, at: nat, champs: Option<FieldMap>)
    ensures WriteShape(InsertCommandeDocumentRun(u, at, champs).events)
  {
    if champs.Some? { TransactionShape(u, at, InsertCommandeDocumentPlan(champs.value), CommitUnlessRaised); }
  }

  lemma InsertAbonnementShape(u: UpdateOracle, at: nat, champs: Option<FieldMap>)
    ensures WriteShape(InsertAbonnementRun(u, at, champs).events)
  {
    if champs.Some? { TransactionShape(u, at, InsertAbonnementPlan(champs.value), CommitUnlessRaised); }
  }

  lemma UpdateShape(u: UpdateOracle, at: nat, table: string, id: Option<string>, champs: Option<FieldMap>)
    ensures WriteShape(UpdateRun(u, at, table, id, champs).events)
  {
    UpdateRouteShape(UpdateRouteOf(table), u, at, table, id, champs);
  }

  lemma UpdateRouteShape(route: UpdateRoute, u: UpdateOracle, at: nat, table: string, id: Option<string>, champs: Option<FieldMap>)
    ensures WriteShape(UpdateOn(route, u, at, table, id, champs).events)
  {
    match route
    case UpdateLivre => UpdateLivreShape(u, at, id, champs);
    case UpdateDvd => UpdateDvdShape(u, at, id, champs);
    case UpdateRevue => UpdateRevueShape(u, at, id, champs);
    case UpdateSuiviCommande => NarrowUpdateShape(u, at, id, champs);
    case UpdateEtatExemplaire => NarrowUpdateShape(u, at, id, champs);
    case GenericUpdate => assert UpdateOn(route, u, at, table, id, champs) == UpdateOneTableRun(u, at, table, id, champs);
  }

  lemma UpdateLivreShape(u: UpdateOracle, at: nat, id: Option<string>, champs: Option<FieldMap>)
    ensures WriteShape(UpdateLivreRun(u, at, id, champs).events)
  {
    if id.Some? && champs.Some? {
      TransactionShape(u, at, UpdateLivrePlan(id.value, champs.value), AllOrNothing(false));
    }
  }

  lemma UpdateDvdShape(u: UpdateOracle, at: nat, id: Option<string>, champs: Option<FieldMap>)
    ensures WriteShape(UpdateDvdRun(u, at, id, champs).events)
  {
    if id.Some? && champs.Some? {
      TransactionShape(u, at, UpdateDvdPlan(id.value, champs.value), AllOrNothing(false));
    }
  }

  lemma UpdateRevueShape(u: UpdateOracle, at: nat, id: Option<string>, champs: Option<FieldMap>)
    ensures WriteShape(UpdateRevueRun(u, at, id, champs).events)
  {
    if id.Some? && champs.Some? {
      TransactionShape(u, at, UpdateRevuePlan(id.value, champs.value), AllOrNothing(false));
    }
  }

  lemma NarrowUpdateShape(u: UpdateOracle, at: nat, id: Option<string>, champs: Option<FieldMap>)
    ensures WriteShape(UpdateSuiviCommandeRun(u, at, id, champs).events)
    ensures WriteShape(UpdateEtatExemplaireRun(u, at, id, Field(champs, "numero"), champs).events)
  {
  }

  lemma DeleteShape(u: UpdateOracle, at: nat, table: string, champs: Option<FieldMap>)
    ensures WriteShape(DeleteRun(u, at, table, champs).events)
  {
    DeleteRouteShape(DeleteRouteOf(table), u, at, table, champs);
  }

  lemma DeleteRouteShape(route: DeleteRoute, u: UpdateOracle, at: nat, table: string, champs: Option<FieldMap>)
    ensures WriteShape(DeleteOn(route, u, at, table, champs).events)
  {
    match route
    case DeleteLivre => DeleteByIdShape(u, at, champs, DeleteLivrePlan);
    case DeleteDvd => DeleteByIdShape(u, at, champs, DeleteDvdPlan);
    case DeleteRevue => DeleteByIdShape(u, at, champs, DeleteRevuePlan);
    case DeleteCommande => DeleteByIdShape(u, at, champs, DeleteCommandePlan);
    case DeleteExemplaire => DeleteExemplaireShape(u, at, champs);
    case GenericDelete => assert DeleteOn(route, u, at, table, champs) == DeleteOneTableRun(u, at, table, champs);
  }

  lemma DeleteByIdShape(u: UpdateOracle, at: nat, champs: Option<FieldMap>, plan: string -> seq<Statement>)
    requires forall id :: |plan(id)| > 0
    ensures WriteShape(DeleteByIdRun(u, at, champs, plan).events)
  {
    var id := Field(champs, "id");
    if id.Text? { TransactionShape(u, at, plan(id.s), CommitUnlessRaised); }
  }

  lemma DeleteExemplaireShape(u: UpdateOracle, at: nat, champs: Option<FieldMap>)
    ensures WriteShape(DeleteExemplaireRun(u, at, champs).events)
  {
    var id := Field(champs, "id");
    if id.Text? {
      TransactionShape(u, at, [DeleteExemplaireStatement(id.s, Field(champs, "numero"))], CommitUnlessRaised);
    }
  }
}
