/** The fixed readers of `MyAccessBDD`: the catalogue joins, the copies of a
    document, the orders and subscriptions, the simple reference tables, and
    the login lookup. Each one sends at most one query and returns its answer,
    except `login`, which checks the password before answering. */
module Readers {
  import opened PhpArray
  import opened SqlText
  import opened Connection

  // The query texts, as the readers assemble them: one line per piece of
  // literal text the PHP code appends, cut only between words.

  /** The classification columns shared by the three catalogue queries. */
  const CatalogueLabels: string :=
    "d.idrayon, d.idpublic, " + "d.idgenre, g.libelle as " + "genre, p.libelle as " + "lePublic, r.libelle as " + "rayon "

  /** The joins that label the classification, and the order by title. */
  const CatalogueJoins: string :=
    "join genre g " + "on g.id=d.idGenre "
    + "join public p " + "on p.id=d.idPublic "
    + "join rayon r " + "on r.id=d.idRayon "
    + "order by titre "

  /** A catalogue query: the table's own columns, the classification, the
      table `t` aliased `l` joined with its document, and the labels. */
  function CatalogueText(columns: string, t: string): string {
    columns + CatalogueLabels + "from " + t + " l join " + "document d on l.id=d.id " + CatalogueJoins
  }

  const LivresColumns: string := "Select l.id, l.ISBN, " + "l.auteur, d.titre, " + "d.image, l.collection, "
  const DvdColumns: string := "Select l.id, l.duree, " + "l.realisateur, d.titre, " + "d.image, l.synopsis, "
  const RevuesColumns: string := "Select l.id, " + "l.periodicite, d.titre, " + "d.image, l.delaiMiseADispo, "

  const LivresText: string := CatalogueText(LivresColumns, "livre")
  const DvdText: string := CatalogueText(DvdColumns, "dvd")
  const RevuesText: string := CatalogueText(RevuesColumns, "revue")

  function SimpleTableText(table: string): string {
    "select * from " + table + " order by libelle;"
  }

  /** The copies of one document, newest purchase first. */
  const ExemplairesColumns: string :=
    "SELECT e.id, e.numero, " + "e.dateAchat, e.photo, " + "e.idEtat, et.libelle " + "AS libelleEtat "
  const ExemplairesFrom: string :=
    "FROM exemplaire e "
    + "JOIN etat et " + "ON e.idEtat = et.id "
    + "WHERE e.id = "
  const ExemplairesTail: string :=
    " "
    + "ORDER BY e.dateAchat DESC"
  const ExemplairesText: string := ExemplairesColumns + ExemplairesFrom + Marker("id") + ExemplairesTail

  /** Every order, newest first. */
  const AllCommandesText: string :=
    "SELECT id, dateCommande, " + "montant FROM commande " + "ORDER BY dateCommande DESC;"

  /** The orders of one book or DVD, with their follow-up stage. */
  const DocumentCommandesColumns: string :=
    "SELECT c.id, " + "cd.idLivreDvd, c.dateCommande, " + "c.montant, cd.nbExemplaire, " + "cd.idsuivi, s.libelle " + "as libelleSuivi "
  const DocumentCommandesFrom: string :=
    "FROM commande c "
    + "JOIN commandedocument cd " + "ON c.id = cd.id "
    + "JOIN suivi s " + "ON cd.idsuivi = s.id "
    + "WHERE cd.idLivreDvd = "
  const DocumentCommandesTail: string :=
    " "
    + "ORDER BY c.dateCommande DESC;"
  const DocumentCommandesText: string :=
    DocumentCommandesColumns + DocumentCommandesFrom + Marker("id") + DocumentCommandesTail

  /** The subscriptions, all of them or those of one periodical. */
  const AbonnementsColumns: string :=
    "SELECT c.id, " + "c.dateCommande, c.montant, " + "a.dateFinAbonnement, " + "a.idRevue "
  const AbonnementsFrom: string :=
    "FROM commande c "
    + "JOIN abonnement a " + "ON c.id = a.id "
  const AbonnementsOrder: string := " ORDER BY " + "c.dateCommande DESC"
  const AbonnementsWhere: string := " WHERE a.idRevue = "
  const AllAbonnementsText: string := AbonnementsColumns + AbonnementsFrom + AbonnementsOrder
  const RevueAbonnementsText: string :=
    AbonnementsColumns + AbonnementsFrom + AbonnementsWhere + Marker("idR") + " " + AbonnementsOrder

  /** The account with a given e-mail address, with its service; the PHP
      literal spans four lines, each continued after a newline and sixteen
      spaces. */
  const LoginColumns: string :=
    "SELECT u.id, u.email, " + "u.password, u.idservice, " + "s.libelle "
  const LoginIndent: string := "        " + "        "
  const LoginFrom: string :=
    "\n" + LoginIndent + "FROM utilisateur u "
    + "\n" + LoginIndent + "JOIN service s " + "ON u.idservice = s.id "
    + "\n" + LoginIndent + "WHERE u.email = "
  const LoginText: string := LoginColumns + LoginFrom + Marker("email")

  // What each reader does, as events and a reply.

  /** `selectTableSimple`: every row of a table holding an id and a label, by label. */
  function SelectTableSimpleRun(q: QueryOracle, at: nat, table: string): Run<seq<Row>> {
    Ask(q, at, Statement(SimpleTableText(table), []))
  }

  function SelectAllLivresRun(q: QueryOracle, at: nat): Run<seq<Row>> {
    Ask(q, at, Statement(LivresText, []))
  }

  function SelectAllDvdRun(q: QueryOracle, at: nat): Run<seq<Row>> {
    Ask(q, at, Statement(DvdText, []))
  }

  function SelectAllRevuesRun(q: QueryOracle, at: nat): Run<seq<Row>> {
    Ask(q, at, Statement(RevuesText, []))
  }

  /** `selectExemplaires` refuses a payload that is empty or has no `id` key;
      otherwise it binds `id` alone, with whatever the payload holds under it. */
  function SelectExemplairesRun(q: QueryOracle, at: nat, champs: Option<FieldMap>): Run<seq<Row>> {
    if IsEmpty(champs) || "id" !in Keys(champs.value) then Refused()
    else Ask(q, at, Statement(ExemplairesText, [("id", Get(champs.value, "id"))]))
  }

  /** `selectAllCommandes`: the orders of one document when the payload sets
      `id`, every order otherwise. */
  function CommandesStatement(champs: Option<FieldMap>): Statement {
    if IsEmpty(champs) || !IsSet(champs.value, "id") then Statement(AllCommandesText, [])
    else Statement(DocumentCommandesText, [("id", Get(champs.value, "id"))])
  }

  function SelectAllCommandesRun(q: QueryOracle, at: nat, champs: Option<FieldMap>): Run<seq<Row>> {
    Ask(q, at, CommandesStatement(champs))
  }

  /** `selectAbonnementsRevue`: the subscriptions of one periodical when the
      payload sets `id`, bound under the name `idR`; all of them otherwise. */
  function AbonnementsStatement(champs: Option<FieldMap>): Statement {
    if IsEmpty(champs) || !IsSet(champs.value, "id") then Statement(AllAbonnementsText, [])
    else Statement(RevueAbonnementsText, [("idR", Get(champs.value, "id"))])
  }

  function SelectAbonnementsRevueRun(q: QueryOracle, at: nat, champs: Option<FieldMap>): Run<seq<Row>> {
    Ask(q, at, AbonnementsStatement(champs))
  }

  /** `password_verify(password, hash)`, whose hashing is not modelled. */
  type PasswordCheck = (string, string) -> bool

  function LoginStatement(email: string): Statement {
    Statement(LoginText, [("email", Text(email))])
  }

  /** The stored hash as `password_verify` receives it: a missing or null
      column reaches it as the empty string. */
  function StoredHash(row: Row): string {
    match Get(row, "password")
    case Null => ""
    case Text(h) => h
  }

  /** `login`: nothing is asked unless both `email` and `password` are given;
      the account is returned, without its `password` column, only when the
      lookup returns a row and the password matches the first row's hash. */
  function LoginRun(q: QueryOracle, verify: PasswordCheck, at: nat, champs: Option<FieldMap>): Run<Row> {
    var email, pwd := Field(champs, "email"), Field(champs, "password");
    if email.Null? || pwd.Null? then Refused()
    else
      var asked := Ask(q, at, LoginStatement(email.s));
      match asked.reply
      case Raised => Run(asked.events, Raised)
      case ReturnedNull => Run(asked.events, ReturnedNull)
      case Returned(rows) =>
        if |rows| > 0 && verify(pwd.s, StoredHash(rows[0])) then
          Run(asked.events, Returned(Unset(rows[0], "password")))
        else Run(asked.events, ReturnedNull)
  }

  // Properties of the readers.

  // The literal parts of the query texts hold no colon, so the only parameters
  // a text refers to are the markers placed in it. Each constant is checked
  // by a lemma of its own: the solver's cost of searching a literal for a
  // character grows quickly with the amount of literal text in one proof.

  lemma CatalogueLabelsNoColon()
    ensures ':' !in CatalogueLabels
  {
  }

  lemma CatalogueJoinsNoColon()
    ensures ':' !in CatalogueJoins
  {
    assert ':' !in "join genre g " + "on g.id=d.idGenre ";
    assert ':' !in "join public p " + "on p.id=d.idPublic ";
    assert ':' !in "join rayon r " + "on r.id=d.idRayon ";
  }

  lemma LivresColumnsNoColon()
    ensures ':' !in LivresColumns
  {
  }

  lemma DvdColumnsNoColon()
    ensures ':' !in DvdColumns
  {
  }

  lemma RevuesColumnsNoColon()
    ensures ':' !in RevuesColumns
  {
  }

  lemma ExemplairesColumnsNoColon()
    ensures ':' !in ExemplairesColumns
  {
  }

  lemma ExemplairesFromNoColon()
    ensures ':' !in ExemplairesFrom
  {
  }

  lemma AllCommandesTextNoColon()
    ensures ':' !in AllCommandesText
  {
  }

  lemma DocumentCommandesColumnsNoColon()
    ensures ':' !in DocumentCommandesColumns
  {
  }

  lemma DocumentCommandesFromNoColon()
    ensures ':' !in DocumentCommandesFrom
  {
  }

  lemma AbonnementsColumnsNoColon()
    ensures ':' !in AbonnementsColumns
  {
  }

  lemma AbonnementsFromNoColon()
    ensures ':' !in AbonnementsFrom
  {
  }

  lemma LoginColumnsNoColon()
    ensures ':' !in LoginColumns
  {
  }

  lemma LoginFromNoColon()
    ensures ':' !in LoginFrom
  {
  }

  lemma CatalogueTextsNoColon()
    ensures ':' !in LivresText && ':' !in DvdText && ':' !in RevuesText
  {
    CatalogueLabelsNoColon();
    CatalogueJoinsNoColon();
    LivresColumnsNoColon();
    DvdColumnsNoColon();
    RevuesColumnsNoColon();
  }

  /** One query without parameters, whose text refers to none, answered as is. */
  ghost predicate PlainQuery(run: Run<seq<Row>>) {
    && |run.events| == 1 && run.events[0].Query?
    && run.events[0].st.params == [] && Placeholders(run.events[0].st.sql) == []
    && run.reply == run.events[0].rows
  }

  /** The catalogue and reference-table readers send exactly one query, which
      has no parameter and whose text refers to none, and return its answer. */
  lemma CatalogueReadersShape(q: QueryOracle, at: nat, table: string)
    requires IsName(table)
    ensures PlainQuery(SelectAllLivresRun(q, at))
    ensures PlainQuery(SelectAllDvdRun(q, at))
    ensures PlainQuery(SelectAllRevuesRun(q, at))
    ensures PlainQuery(SelectTableSimpleRun(q, at, table))
  {
    CatalogueTextsUnbound();
    NameHasNoColon(table);
    PlaceholdersNone(SimpleTableText(table));
  }

  lemma CatalogueTextsUnbound()
    ensures Placeholders(LivresText) == [] && Placeholders(DvdText) == [] && Placeholders(RevuesText) == []
  {
    CatalogueTextsNoColon();
    PlaceholdersNone(LivresText);
    PlaceholdersNone(DvdText);
    PlaceholdersNone(RevuesText);
  }

  /** `selectExemplaires` sends nothing exactly when the payload is empty or
      lacks the `id` key; otherwise it binds `id` alone, even when the payload
      holds `null` under it (the guard tests the key, not the value). */
  lemma ExemplairesGuard(q: QueryOracle, at: nat, champs: Option<FieldMap>)
    ensures var run := SelectExemplairesRun(q, at, champs);
      && (run.events == [] <==> IsEmpty(champs) || "id" !in Keys(champs.value))
      && (run.events == [] ==> run.reply == ReturnedNull)
      && (run.events != [] ==>
            |run.events| == 1 && run.events[0].Query? && run.reply == run.events[0].rows
            && Keys(run.events[0].st.params) == ["id"]
            && Get(run.events[0].st.params, "id") == Field(champs, "id"))
  {
  }

  /** The order and subscription readers always send one query; they narrow it
      to one document exactly when the payload sets `id`, binding that value
      alone (as `id`, respectively `idR`). */
  lemma OrderReadersChoice(q: QueryOracle, at: nat, champs: Option<FieldMap>)
    ensures var narrowed := !IsEmpty(champs) && IsSet(champs.value, "id");
      var cmd := SelectAllCommandesRun(q, at, champs).events;
      var abo := SelectAbonnementsRevueRun(q, at, champs).events;
      && |cmd| == 1 && cmd[0].Query? && |abo| == 1 && abo[0].Query?
      && (narrowed <==> cmd[0].st.params != []) && (narrowed <==> abo[0].st.params != [])
      && (!narrowed ==> cmd[0].st.sql == AllCommandesText && abo[0].st.sql == AllAbonnementsText)
      && (narrowed ==> Keys(cmd[0].st.params) == ["id"] && Get(cmd[0].st.params, "id") == Field(champs, "id"))
      && (narrowed ==> Keys(abo[0].st.params) == ["idR"] && Get(abo[0].st.params, "idR") == Field(champs, "id"))
      && (narrowed ==> Field(champs, "id").Text?)
  {
  }

  // Every statement a reader sends binds exactly the parameters its text refers to.

  lemma ExemplairesWellBound(v: Value)
    ensures Placeholders(ExemplairesText) == ["id"]
    ensures WellBound(Statement(ExemplairesText, [("id", v)]))
  {
    ExemplairesColumnsNoColon();
    ExemplairesFromNoColon();
    LoneMarker(ExemplairesColumns + ExemplairesFrom, "id", ExemplairesTail);
  }

  lemma CommandesWellBound(champs: Option<FieldMap>)
    ensures WellBound(CommandesStatement(champs))
  {
    AllCommandesTextNoColon();
    PlaceholdersNone(AllCommandesText);
    DocumentCommandesColumnsNoColon();
    DocumentCommandesFromNoColon();
    LoneMarker(DocumentCommandesColumns + DocumentCommandesFrom, "id", DocumentCommandesTail);
  }

  lemma AbonnementsWellBound(champs: Option<FieldMap>)
    ensures WellBound(AbonnementsStatement(champs))
  {
    AbonnementsColumnsNoColon();
    AbonnementsFromNoColon();
    PlaceholdersNone(AllAbonnementsText);
    var head := AbonnementsColumns + AbonnementsFrom + AbonnementsWhere;
    assert RevueAbonnementsText == head + Marker("idR") + (" " + AbonnementsOrder);
    LoneMarker(head, "idR", " " + AbonnementsOrder);
  }

  lemma LoginWellBound(email: string)
    ensures WellBound(LoginStatement(email))
  {
    LoginColumnsNoColon();
    LoginFromNoColon();
    TrailingMarker(LoginColumns + LoginFrom, "email");
  }

  /** `login` asks nothing and answers `null` when the e-mail or the password
      is missing; otherwise it sends one lookup that binds the e-mail alone. */
  lemma LoginGuard(q: QueryOracle, verify: PasswordCheck, at: nat, champs: Option<FieldMap>)
    ensures var run := LoginRun(q, verify, at, champs);
      var email, pwd := Field(champs, "email"), Field(champs, "password");
      && (email.Null? || pwd.Null? ==> run.events == [] && run.reply == ReturnedNull)
      && (email.Text? && pwd.Text? ==>
            run.events == [Query(LoginStatement(email.s), q(at, LoginStatement(email.s)))])
  {
  }

  /** `login` returns an account exactly when the lookup returns at least one
      row and the given password matches the first row's stored hash; the
      lookup's exception propagates; every other case answers `null`. */
  lemma LoginOutcome(q: QueryOracle, verify: PasswordCheck, at: nat, champs: Option<FieldMap>)
    ensures var run := LoginRun(q, verify, at, champs);
      var email, pwd := Field(champs, "email"), Field(champs, "password");
      var found := email.Text? && pwd.Text? && q(at, LoginStatement(email.s)).Returned?;
      && (run.reply.Returned? <==>
            found && |q(at, LoginStatement(email.s)).value| > 0
            && verify(pwd.s, StoredHash(q(at, LoginStatement(email.s)).value[0])))
      && (run.reply.Raised? <==> email.Text? && pwd.Text? && q(at, LoginStatement(email.s)).Raised?)
  {
  }

  /** The account `login` returns is the first row without its `password`
      column: that column is gone and every other column is as stored. */
  lemma LoginHidesPassword(q: QueryOracle, verify: PasswordCheck, at: nat, champs: Option<FieldMap>)
    requires LoginRun(q, verify, at, champs).reply.Returned?
    ensures var account := LoginRun(q, verify, at, champs).reply.value;
      var row := q(at, LoginStatement(Field(champs, "email").s)).value[0];
      && "password" !in Keys(account)
      && Get(account, "password") == Null
      && forall k :: k != "password" ==> Get(account, k) == Get(row, k)
  {
    var row := q(at, LoginStatement(Field(champs, "email").s)).value[0];
    forall k | k != "password" ensures Get(Unset(row, "password"), k) == Get(row, k) {
      UnsetGet(row, "password", k);
    }
    UnsetGet(row, "password", "password");
  }
}
