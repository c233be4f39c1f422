# MyAccessBDD in Dafny

This project models the data-access class `MyAccessBDD` of a media-library
REST API. The class receives a table name, an optional identifier and an
optional field map, and turns them into SQL statements sent through a PDO
connection. The model covers:

- the four entry points `traitementSelect`, `traitementInsert`,
  `traitementUpdate` and `traitementDelete`, which pick a dedicated handler
  from the table name or fall back to a generic single-table builder;
- the generic builders, which assemble `select`, `insert`, `update` and
  `delete` texts with named placeholders in `foreach` loops;
- the fixed readers: the catalogue joins, the copies of a document, orders,
  subscriptions, reference tables, and the `login` lookup;
- the composite handlers, which write a document and the tables that
  specialise it inside one transaction;
- the two narrow updates, the stage of an order line and the state of a copy.

The connection is a class whose only state is a trace of what it was asked
(`Begin`, `Query`, `Update`, `Commit`, `Rollback`), each request with the
answer it got. Answers come from two oracle functions indexed by trace
position and statement, so no database is modelled. Every handler of
`MyAccessBDD` is a method on that connection. Each method is proved to append
exactly the events of a pure "run" function and to return that function's
reply. The properties the class promises are lemmas about those run functions.

Modules, from the bottom up:

- `PhpArray`: PHP ordered arrays (`FieldMap`: a key-ordered list with no
  repeated key), `$m[$k]`, `isset`, `empty`, `$m[$k] = $v`, `unset`, and
  array literals that copy listed columns from a payload.
- `SqlText`: `implode`, the `.=`-then-`substr` idiom, and the named
  parameters a statement text refers to (`Placeholders`).
- `Connection`: replies (`Returned`, `ReturnedNull`, `Raised`), statements,
  events, the oracles and the `Connection` class.
- `Builders`: the generic builders, their loops as methods, and their texts.
- `Transactions`: the `beginTransaction` / statements / `commit` or
  `rollBack` pattern, under the two decision policies the handlers use.
- `Readers`: the fixed readers and `login`.
- `Composites`: the plans (lists of statements) of the composite handlers,
  their run functions and their outcomes.
- `Dispatch`: the four `switch ($table)` statements as route functions.
- `Access`: the class `MyAccessBDD` itself.

The quirks of the code are modelled as written:

- `insertLivre` rethrows the exception it caught after rolling back. The
  other all-or-nothing handlers return `null` instead.
- `insertCommandeDocument` and `insertAbonnement` ignore the answer of the
  `commande` insert and always commit unless something raises.
- The deletes commit whatever the intermediate deletes answer, and return the
  last delete's answer.
- `selectExemplaires` tests for the key `id`, not for a non-null value.
- The `utilisateur` select turns an account without any column into `null`.

## Model

| member | source | states |
|---|---|---|
| Access.MyAccessBDD.SelectTuplesOneTable | src/MyAccessBDD.php:137-152 | The trace grows by exactly the events of `SelectOneTableRun` and the method returns its reply. |
| Access.MyAccessBDD.InsertOneTupleOneTable | src/MyAccessBDD.php:160-179 | The trace grows by exactly the events of `InsertOneTableRun` and the method returns its reply. |
| Access.MyAccessBDD.UpdateOneTupleOneTable | src/MyAccessBDD.php:188-205 | The trace grows by exactly the events of `UpdateOneTableRun` and the method returns its reply. |
| Access.MyAccessBDD.DeleteTuplesOneTable | src/MyAccessBDD.php:213-225 | The trace grows by exactly the events of `DeleteOneTableRun` and the method returns its reply. |
| Access.MyAccessBDD.SelectTableSimple | src/MyAccessBDD.php:232-235 | One query of the reference table, as `SelectTableSimpleRun` describes. |
| Access.MyAccessBDD.SelectAllLivres | src/MyAccessBDD.php:241-250 | One catalogue query for books, as `SelectAllLivresRun` describes. |
| Access.MyAccessBDD.SelectAllDvd | src/MyAccessBDD.php:256-265 | One catalogue query for DVDs, as `SelectAllDvdRun` describes. |
| Access.MyAccessBDD.SelectAllRevues | src/MyAccessBDD.php:271-280 | One catalogue query for periodicals, as `SelectAllRevuesRun` describes. |
| Access.MyAccessBDD.SelectExemplaires | src/MyAccessBDD.php:287-301 | The trace and reply of `SelectExemplairesRun`: no query without an `id` key. |
| Access.MyAccessBDD.SelectAllCommandes | src/MyAccessBDD.php:308-321 | The trace and reply of `SelectAllCommandesRun`. |
| Access.MyAccessBDD.SelectAbonnementsRevue | src/MyAccessBDD.php:328-341 | The trace and reply of `SelectAbonnementsRevueRun`. |
| Access.MyAccessBDD.Login | src/MyAccessBDD.php:348-369 | The trace and reply of `LoginRun`, with `password_verify` as the class's password check. |
| Access.MyAccessBDD.TryOne | src/MyAccessBDD.php:555-572 | A one-statement try block appends begin, the statement, then commit or rollback, exactly as `TransactionOne` says under the given policy. |
| Access.MyAccessBDD.TryTwo | src/MyAccessBDD.php:376-408 | A two-statement try block appends what `TransactionTwo` says: the second statement is not sent once the first raises. |
| Access.MyAccessBDD.TryThree | src/MyAccessBDD.php:415-450 | A three-statement try block appends what `TransactionThree` says: sending stops at the first statement that raises. |
| Access.MyAccessBDD.InsertInto | src/MyAccessBDD.php:160-179 | The insert the generic builder sends for a non-empty map: its text built by the two loops, bound to the map. |
| Access.MyAccessBDD.UpdateIn | src/MyAccessBDD.php:188-205 | The update the generic builder sends for a non-empty map: its text built by the loop, bound to the map with `id` overridden. |
| Access.MyAccessBDD.InsertRevue | src/MyAccessBDD.php:376-408 | The trace and reply of `InsertRevueRun`: document then revue, all or nothing. |
| Access.MyAccessBDD.InsertLivre | src/MyAccessBDD.php:415-450 | The trace and reply of `InsertLivreRun`: document, livres_dvd, livre, all or nothing, exceptions rethrown. |
| Access.MyAccessBDD.InsertDvd | src/MyAccessBDD.php:457-492 | The trace and reply of `InsertDvdRun`: document, livres_dvd, dvd, all or nothing. |
| Access.MyAccessBDD.InsertCommandeDocument | src/MyAccessBDD.php:499-522 | The trace and reply of `InsertCommandeDocumentRun`: commande, then the order line with stage `00001`, committed unless one raises. |
| Access.MyAccessBDD.InsertAbonnement | src/MyAccessBDD.php:529-548 | The trace and reply of `InsertAbonnementRun`: commande then abonnement, committed unless one raises. |
| Access.MyAccessBDD.UpdateLivre | src/MyAccessBDD.php:678-707 | The trace and reply of `UpdateLivreRun`: a `TypeError` on a null argument, otherwise document then livre, all or nothing. |
| Access.MyAccessBDD.UpdateDvd | src/MyAccessBDD.php:715-740 | The trace and reply of `UpdateDvdRun`. |
| Access.MyAccessBDD.UpdateRevue | src/MyAccessBDD.php:748-771 | The trace and reply of `UpdateRevueRun`. |
| Access.MyAccessBDD.DeleteLivre | src/MyAccessBDD.php:579-598 | The trace and reply of `DeleteLivreRun`: livre, livres_dvd, document, committed unless one raises. |
| Access.MyAccessBDD.DeleteDvd | src/MyAccessBDD.php:605-624 | The trace and reply of `DeleteDvdRun`. |
| Access.MyAccessBDD.DeleteRevue | src/MyAccessBDD.php:631-648 | The trace and reply of `DeleteRevueRun`. |
| Access.MyAccessBDD.DeleteCommande | src/MyAccessBDD.php:555-572 | The trace and reply of `DeleteCommandeRun`. |
| Access.MyAccessBDD.DeleteExemplaire | src/MyAccessBDD.php:655-670 | The trace and reply of `DeleteExemplaireRun`: one delete bound to `id` and `numero`. |
| Access.MyAccessBDD.UpdateSuiviCommande | src/MyAccessBDD.php:779-789 | The trace and reply of `UpdateSuiviCommandeRun`: one update outside any transaction. |
| Access.MyAccessBDD.UpdateEtatExemplaire | src/MyAccessBDD.php:798-809 | The trace and reply of `UpdateEtatExemplaireRun`: one update outside any transaction. |
| Access.MyAccessBDD.TraitementSelect | src/MyAccessBDD.php:34-62 | The trace and reply of `Dispatch.SelectRun`: the reader the table selects, or the generic select. |
| Access.MyAccessBDD.TraitementInsert | src/MyAccessBDD.php:71-86 | The trace and reply of `Dispatch.InsertRun`. |
| Access.MyAccessBDD.TraitementUpdate | src/MyAccessBDD.php:96-107 | The trace and reply of `Dispatch.UpdateRun`; the copy handler gets the payload's `numero`. |
| Access.MyAccessBDD.TraitementDelete | src/MyAccessBDD.php:116-129 | The trace and reply of `Dispatch.DeleteRun`. |
| Builders.BuildConjunction | src/MyAccessBDD.php:144-149 | The `foreach` that appends `key=:key and ` for every key, then cuts the last ` and `, yields the prefix followed by the assignments joined by ` and `. |
| Builders.AppendColumns | src/MyAccessBDD.php:165-170 | The first insert loop yields the keys joined by commas. |
| Builders.AppendPlaceholders | src/MyAccessBDD.php:171-176 | The second insert loop yields `:key` for every key, joined by commas. |
| Builders.BuildInsert | src/MyAccessBDD.php:165-177 | The insert text is `insert into T (k1,...,kn) values (:k1,...,:kn);`. |
| Builders.AppendSetList | src/MyAccessBDD.php:196-201 | The update loop yields `key=:key` for every key, joined by commas. |
| Builders.BuildUpdate | src/MyAccessBDD.php:196-203 | The update text is the set list followed by ` where id=:id;`. |
| Builders.UpdateStatement | src/MyAccessBDD.php:196-204 | The separate identifier is bound as `id`, overriding any `id` in the map; every other entry is bound unchanged; `id` is added last only when the map lacked it. |
| Builders.PutIdentifier | src/MyAccessBDD.php:202 | `$champs["id"] = $id` binds `id`, leaves every other key, and keeps the key order or appends `id`. |
| Builders.GenericWriteGuards | src/MyAccessBDD.php:160-225 | The generic insert, update and delete send nothing and return null exactly when the map is empty (or, for the update, the id is null); a delete always carries a non-empty conjunction. |
| Builders.GenericSelectShape | src/MyAccessBDD.php:137-152 | The generic select sends exactly one query and returns its answer: `select * from T;` unbound for an empty map, otherwise bound to the map. |
| Builders.SelectPlaceholders | src/MyAccessBDD.php:144-149 | The select text refers to the map's keys in map order. |
| Builders.DeletePlaceholders | src/MyAccessBDD.php:218-223 | The delete text refers to the map's keys in map order. |
| Builders.InsertPlaceholders | src/MyAccessBDD.php:165-177 | The insert text refers to each key once, in map order, through its value list. |
| Builders.UpdatePlaceholders | src/MyAccessBDD.php:196-203 | The update text refers to the keys in map order, then to `id`. |
| Builders.SelectWellBound | src/MyAccessBDD.php:144-150 | The generic select binds exactly the parameters its text refers to. |
| Builders.InsertWellBound | src/MyAccessBDD.php:165-178 | The generic insert binds exactly the parameters its text refers to. |
| Builders.DeleteWellBound | src/MyAccessBDD.php:218-224 | The generic delete binds exactly the parameters its text refers to. |
| Builders.UpdateWellBound | src/MyAccessBDD.php:196-204 | The generic update binds exactly the parameters its text refers to, `id` included. |
| Transactions.Issue | src/MyAccessBDD.php:376-408 | The statements of a try block are sent in order until one raises; none after it is sent. |
| Transactions.TransactionOfOne | src/MyAccessBDD.php:555-572 | The general transaction on one statement equals the spelled-out `TransactionOne`. |
| Transactions.TransactionOfTwo | src/MyAccessBDD.php:376-408 | The general transaction on two statements equals the spelled-out `TransactionTwo`. |
| Transactions.TransactionOfThree | src/MyAccessBDD.php:415-450 | The general transaction on three statements equals the spelled-out `TransactionThree`. |
| Transactions.IssueStopsAtFirstRaise | src/MyAccessBDD.php:377-407 | All statements are sent exactly when none but the last raises; some statement sent raised exactly when some statement raises. |
| Transactions.OnlyLastRaised | src/MyAccessBDD.php:377-407 | Only the last statement sent can have raised. |
| Transactions.TransactionBracketed | src/MyAccessBDD.php:376-408 | Every transaction begins, sends a prefix of its statements in order, and ends with exactly one commit or rollback. |
| Transactions.IssueAllCounted | src/MyAccessBDD.php:397 | Every statement sent answered with a count exactly when every statement of the list does. |
| Transactions.AllOrNothingDecision | src/MyAccessBDD.php:376-450 | Under all-or-nothing, commit exactly when every statement answers with a count, and return 1; otherwise roll back and return null, or raise when the handler rethrows and a statement raised. |
| Transactions.LastAnswerRaised | src/MyAccessBDD.php:377-407 | The last statement sent raised exactly when some statement of the list raises. |
| Transactions.LastAnswerComplete | src/MyAccessBDD.php:377-407 | When the last statement sent did not raise, all were sent, and the last answer is the last statement's. |
| Transactions.CommitUnlessRaisedDecision | src/MyAccessBDD.php:499-670 | Under commit-unless-raised, commit exactly when no statement raises, and return the last statement's answer; otherwise roll back and return null. |
| Readers.CatalogueReadersShape | src/MyAccessBDD.php:232-280 | The catalogue and reference-table readers send one unbound query whose text refers to no parameter, and return its answer. |
| Readers.CatalogueTextsUnbound | src/MyAccessBDD.php:241-280 | The three catalogue texts refer to no parameter. |
| Readers.ExemplairesGuard | src/MyAccessBDD.php:287-301 | `selectExemplaires` sends nothing exactly when the payload is empty or lacks the key `id`; otherwise it sends one query binding `id` alone, even when `id` is null. |
| Readers.OrderReadersChoice | src/MyAccessBDD.php:308-341 | The order and subscription readers always send one query; they narrow it to one document exactly when `id` is set, binding it as `id` or `idR`. |
| Readers.ExemplairesWellBound | src/MyAccessBDD.php:292-300 | The copies query refers to `id` only, which it binds. |
| Readers.CommandesWellBound | src/MyAccessBDD.php:308-321 | Both order queries bind exactly the parameters they refer to. |
| Readers.AbonnementsWellBound | src/MyAccessBDD.php:328-341 | Both subscription queries bind exactly the parameters they refer to. |
| Readers.LoginWellBound | src/MyAccessBDD.php:355-360 | The login lookup binds exactly `email`, the one parameter it refers to. |
| Readers.LoginGuard | src/MyAccessBDD.php:349-360 | `login` sends nothing and returns null when the e-mail or the password is missing; otherwise it sends one lookup bound to the e-mail. |
| Readers.LoginOutcome | src/MyAccessBDD.php:360-368 | `login` returns an account exactly when the lookup returns a row whose stored hash matches the password; it raises exactly when the lookup raises. |
| Readers.LoginHidesPassword | src/MyAccessBDD.php:363-365 | The account returned is the first row without its `password` column; every other column is as stored. |
| Readers.CatalogueTextsNoColon | src/MyAccessBDD.php:241-280 | The literal parts of the catalogue queries hold no colon. |
| Composites.ProjectGet | src/MyAccessBDD.php:380-394 | An array literal copying listed columns binds each to the payload's value. |
| Composites.InsertRevueSharesId | src/MyAccessBDD.php:380-394 | Both inserts of `insertRevue` bind the payload's `id`. |
| Composites.InsertLivreSharesId | src/MyAccessBDD.php:419-437 | The three inserts of `insertLivre` bind the payload's `id`. |
| Composites.InsertDvdSharesId | src/MyAccessBDD.php:461-479 | The three inserts of `insertDvd` bind the payload's `id`. |
| Composites.InsertAbonnementSharesId | src/MyAccessBDD.php:532-541 | Both inserts of `insertAbonnement` bind the payload's `id`. |
| Composites.InsertCommandeDocumentSharesId | src/MyAccessBDD.php:503-514 | Both inserts of `insertCommandeDocument` bind the payload's `id`. |
| Composites.OrderLineColumns | src/MyAccessBDD.php:509-514 | The order line binds `id`, `nbExemplaire` and `idLivreDvd` from the payload, then `idsuivi` to `00001` whatever the payload says. |
| Composites.UpdateLivreBindsId | src/MyAccessBDD.php:682-694 | Both updates of `updateLivre` bind the separate identifier as `id`. |
| Composites.UpdateDvdBindsId | src/MyAccessBDD.php:718-728 | Both updates of `updateDvd` bind the separate identifier as `id`. |
| Composites.UpdateRevueBindsId | src/MyAccessBDD.php:751-758 | Both updates of `updateRevue` bind the separate identifier as `id`. |
| Composites.DeletePlansOrder | src/MyAccessBDD.php:579-648 | The document deletes remove the specialising rows first and the `document` row last, bound to the one identifier. |
| Composites.DeleteByIdWellBound | src/MyAccessBDD.php:588-590 | A delete by identifier refers to `id` only, which it binds. |
| Composites.DeleteExemplaireWellBound | src/MyAccessBDD.php:663 | The copy delete refers to `id` then `numero`, both bound. |
| Composites.SuiviWellBound | src/MyAccessBDD.php:783-788 | The stage update refers to `idsuivi` then `id`, both bound. |
| Composites.EtatWellBound | src/MyAccessBDD.php:802-808 | The state update refers to `idetat`, `id` then `numero`, all bound. |
| Composites.InsertRevueWellBound | src/MyAccessBDD.php:380-395 | Both inserts of `insertRevue` bind exactly the parameters their texts refer to. |
| Composites.InsertLivreWellBound | src/MyAccessBDD.php:419-437 | The three inserts of `insertLivre` bind exactly the parameters their texts refer to. |
| Composites.InsertDvdWellBound | src/MyAccessBDD.php:461-479 | The three inserts of `insertDvd` bind exactly the parameters their texts refer to. |
| Composites.InsertCommandeDocumentWellBound | src/MyAccessBDD.php:503-514 | The order insert and the order-line insert, `idsuivi` included, bind exactly the parameters their texts refer to. |
| Composites.InsertAbonnementWellBound | src/MyAccessBDD.php:532-541 | The order insert and the subscription insert bind exactly the parameters their texts refer to. |
| Composites.UpdateLivreWellBound | src/MyAccessBDD.php:682-694 | Both updates of `updateLivre` bind exactly the parameters their texts refer to, `id` included. |
| Composites.UpdateDvdWellBound | src/MyAccessBDD.php:718-728 | Both updates of `updateDvd` bind exactly the parameters their texts refer to, `id` included. |
| Composites.UpdateRevueWellBound | src/MyAccessBDD.php:751-758 | Both updates of `updateRevue` bind exactly the parameters their texts refer to, `id` included. |
| Composites.DeleteLivreWellBound | src/MyAccessBDD.php:588-590 | Each of the three deletes of `deleteLivre` refers to `id` only, which it binds. |
| Composites.DeleteDvdWellBound | src/MyAccessBDD.php:614-616 | Each of the three deletes of `deleteDvd` refers to `id` only, which it binds. |
| Composites.DeleteRevueWellBound | src/MyAccessBDD.php:639-640 | Both deletes of `deleteRevue` refer to `id` only, which they bind. |
| Composites.DeleteCommandeWellBound | src/MyAccessBDD.php:564 | The delete of `deleteCommande` refers to `id` only, which it binds. |
| Composites.InsertGuards | src/MyAccessBDD.php:376-529 | A null payload to an insert handler is a `TypeError`: nothing is sent. |
| Composites.UpdateGuards | src/MyAccessBDD.php:678-748 | A null id or payload to an update handler is a `TypeError`: nothing is sent. |
| Composites.DeleteGuards | src/MyAccessBDD.php:555-660 | Each delete sends nothing and returns null exactly when the payload is null or does not set `id`. |
| Composites.NarrowUpdateGuards | src/MyAccessBDD.php:779-809 | A null argument is a `TypeError`; otherwise the narrow updates send nothing and return null exactly when the column they change is not set. |
| Composites.AllOrNothingTwo | src/MyAccessBDD.php:376-408 | A two-statement all-or-nothing plan commits exactly when both answer with a count, then returns 1, and otherwise returns null. |
| Composites.AllOrNothingThree | src/MyAccessBDD.php:415-492 | A three-statement all-or-nothing plan commits exactly when all three answer with a count; an exception propagates only when the handler rethrows. |
| Composites.CommitUnlessRaisedOutcome | src/MyAccessBDD.php:499-670 | A commit-unless-raised plan commits exactly when no statement raises, and returns the last answer. |
| Composites.CommitUnlessRaisedTwo | src/MyAccessBDD.php:499-548 | The same for a plan of two statements. |
| Composites.CommitUnlessRaisedThree | src/MyAccessBDD.php:579-624 | The same for a plan of three statements. |
| Composites.InsertRevueOutcome | src/MyAccessBDD.php:376-408 | `insertRevue` commits exactly when both inserts answer with a count, then returns 1; otherwise it returns null, even after an exception. |
| Composites.InsertLivreOutcome | src/MyAccessBDD.php:415-450 | `insertLivre` commits exactly when all three inserts answer with a count; after a rollback it rethrows any exception, otherwise returns null. |
| Composites.InsertDvdOutcome | src/MyAccessBDD.php:457-492 | `insertDvd` commits exactly when all three inserts answer with a count, then returns 1; otherwise it returns null. |
| Composites.InsertCommandeDocumentOutcome | src/MyAccessBDD.php:499-522 | `insertCommandeDocument` commits unless an insert raises, even when the `commande` insert answers null, and returns the order line's answer. |
| Composites.InsertAbonnementOutcome | src/MyAccessBDD.php:529-548 | `insertAbonnement` commits unless an insert raises and returns the subscription insert's answer. |
| Composites.UpdateLivreOutcome | src/MyAccessBDD.php:678-707 | `updateLivre` commits exactly when both updates answer with a count, then returns 1; otherwise it returns null. |
| Composites.UpdateDvdOutcome | src/MyAccessBDD.php:715-740 | `updateDvd` commits exactly when both updates answer with a count, then returns 1; otherwise it returns null. |
| Composites.UpdateRevueOutcome | src/MyAccessBDD.php:748-771 | `updateRevue` commits exactly when both updates answer with a count, then returns 1; otherwise it returns null. |
| Composites.DeleteLivreOutcome | src/MyAccessBDD.php:579-598 | `deleteLivre` commits unless a delete raises, whatever the first two answer, and returns the `document` delete's answer. |
| Composites.DeleteDvdOutcome | src/MyAccessBDD.php:605-624 | `deleteDvd` commits unless a delete raises and returns the `document` delete's answer. |
| Composites.DeleteRevueOutcome | src/MyAccessBDD.php:631-648 | `deleteRevue` commits unless a delete raises and returns the `document` delete's answer. |
| Composites.DeleteCommandeOutcome | src/MyAccessBDD.php:555-572 | `deleteCommande` commits unless its delete raises and returns its answer. |
| Composites.DeleteExemplaireOutcome | src/MyAccessBDD.php:655-670 | `deleteExemplaire` sends one delete bound to `id` and the payload's `numero` (null when not set), commits unless it raises, and returns its answer. |
| Composites.UpdateSuiviCommandeOutcome | src/MyAccessBDD.php:779-789 | `updateSuiviCommande` sends one update outside any transaction, bound to the order line and its new stage, and returns its answer as is. |
| Composites.UpdateEtatExemplaireOutcome | src/MyAccessBDD.php:798-809 | `updateEtatExemplaire` sends one update outside any transaction, bound to the copy's key and its new state, and returns its answer as is. |
| Dispatch.AccountRows | src/MyAccessBDD.php:56-57 | `$res ? [$res] : null`: a one-row list exactly when the account is returned and not empty; an exception propagates. |
| Dispatch.RoutesFallThrough | src/MyAccessBDD.php:34-129 | A table reaches the generic builder exactly when no `case` names it; the reference tables share `selectTableSimple`. |
| Dispatch.GenericFallback | src/MyAccessBDD.php:58-125 | For a table with no dedicated handler, each entry point behaves as the generic builder. |
| Dispatch.SelectOnlyReads | src/MyAccessBDD.php:34-62 | A select sends at most one query and nothing else. |
| Dispatch.LoginSelect | src/MyAccessBDD.php:55-57 | The `utilisateur` select sends what `login` sends and returns the account as a one-row list, or null for an empty account. |
| Dispatch.InsertShape | src/MyAccessBDD.php:71-86 | An insert sends nothing, one statement, or one bracketed transaction of writes; it never queries. |
| Dispatch.UpdateShape | src/MyAccessBDD.php:96-107 | An update sends nothing, one statement, or one bracketed transaction of writes. |
| Dispatch.DeleteShape | src/MyAccessBDD.php:116-129 | A delete sends nothing, one statement, or one bracketed transaction of writes. |
| Dispatch.TransactionShape | src/MyAccessBDD.php:376-771 | Every transaction has that bracketed shape. |
| PhpArray.Get | src/MyAccessBDD.php:103 | `$m[$k]` reads the value stored under the key, and null for a missing key. |
| PhpArray.Field | src/MyAccessBDD.php:349-350 | A key read on a nullable array is its value when the array is not null and the key is set, and null otherwise: the value of `$champs[$k] ?? null` here and of the guarded reads `(is_array($champs) && isset($champs[$k])) ? $champs[$k] : null` at lines 556 and 656-657. |
| PhpArray.Put | src/MyAccessBDD.php:202 | `$m[$k] = $v` overwrites an existing key in place and appends a new key at the end. |
| PhpArray.PutGet | src/MyAccessBDD.php:202 | After `$m[$k] = $v`, the key reads as `v` and every other key reads as before. |
| PhpArray.Unset | src/MyAccessBDD.php:364 | `unset($m[$k])` removes the key and keeps every other entry in its place. |
| PhpArray.UnsetGet | src/MyAccessBDD.php:364 | After `unset`, the key reads as null and every other key reads as before. |
| PhpArray.Project | src/MyAccessBDD.php:380-394 | An array literal over listed columns has exactly those keys in order, each bound to the payload's value. |
| SqlText.TrimTerminated | src/MyAccessBDD.php:149 | Cutting the last separator off a separator-terminated list gives the list joined by that separator. |
| SqlText.TerminatedIsJoined | src/MyAccessBDD.php:166-170 | A separator-terminated list is the joined list followed by one separator. |
| SqlText.PlaceholdersAppend | src/MyAccessBDD.php:144-149 | The parameters of a concatenation are those of the parts, when the cut cannot fall inside a name. |
| SqlText.PlaceholdersOfJoin | src/MyAccessBDD.php:144-149 | Joining texts with a colon-free separator that starts and ends outside a name keeps their parameters in order. |

## Left out

- The connection class (`Connect`), its constructor and the database are not part of this model. The oracles stand for the database's answers.
- `beginTransaction`, `commit` and `rollBack` never fail in this model. An exception from them is not modelled.
- A `Raised` reply stands for an `\Exception` (such as a `PDOException`) thrown by `queryBDD` or `updateBDD`, which the handlers' `catch (\Exception $e)` catches. A PHP `\Error` is not caught there: it would leave the transaction open with no `rollBack`. Such errors are not modelled.
- SQL has no semantics here. Row counts, rows and exceptions come from the oracles. Foreign keys and the real effect of a delete are not modelled.
- `password_verify` is a parameter of the class, because password hashing is not modelled.
- PHP warnings for missing keys or for an offset on a null array are not modelled. Only the value PHP then yields (null) is.
- Scalars are modelled as `null` or their string form. Integer or float payload values are not distinguished from strings.
- A null payload or id passed to a handler declared with `array` or `string` parameters is modelled as a `TypeError` that sends nothing. The text of that error is not modelled.
- Builders.SelectWellBound: proved only for tables and keys that are plain names (letters, digits, `_`). For other keys, PDO's placeholder parsing is not modelled. The same holds for InsertWellBound, UpdateWellBound and DeleteWellBound.
- Well-boundness of the readers' statements is proved per statement shape. For the composite handlers it is proved per plan as well.
- Builders.UpdateWellBound: when the map binds `id`, the update text refers to `:id` twice. `WellBound` compares sets, so it does not say whether the driver accepts a repeated named placeholder. That depends on the connection's prepare-emulation setting, which is part of the connection class and is not modelled. The ensures gives the placeholder sequence, `id` included twice.
- The composite handlers send their statements directly rather than through the generic builder methods. Their column projections are never empty, so the generic builder's empty-map guard cannot fire there. The builders' texts and bindings are the same.
- The `try`/`catch` block of the composite handlers is one method per plan length (`TryOne`, `TryTwo`, `TryThree`) with the decision policy as a parameter, rather than being repeated in each handler.
- Concurrency, connection pooling and the HTTP layer that calls the entry points are not part of this model.
