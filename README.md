# elostock inventory core, modelled in Dafny

`app.py` is a small Flask application for a promotional-goods company. It has a table of
consumable products (`Produto`), a table of loanable samples (`Amostra`) and an append-only
movement log (`Log`). Four parts of the code change or read that store:

- the Slack/Gemini bot tool `tool_atualizar_estoque`, which finds the first product whose name
  contains a term (ignoring case) and withdraws a quantity;
- the web handler `acao`, which withdraws stock from a product chosen by id, or checks a sample
  out (`retirar`) or back in (`devolver`);
- the read-only bot tool `tool_consultar_status`, which reports low-stock products and samples
  that are out (`EM_RUA`);
- role handling: the role name stored at login, the dashboard's visibility table and the
  per-type access block in `acao`.

The model takes the store out of Flask and SQLAlchemy:

- `Tables` holds the three row types as datatypes and `Db` as the whole store.
- `Operations` gives each request as a function from the store before it to the store after it,
  with the reply.
- `Inventory.Store` is a class with a product `array`, a sample `array` and a `seq` log. Its
  methods update rows in place and append to the log. Each is proved to produce exactly the
  new state and reply of the matching `Operations` function.
- `Report` is the status report.
- `Roles` is the role handling.
- `Text` holds case folding, substring search, `join` and integer printing.
- `Ledger` runs any sequence of bot and web requests. It proves that, for every product, the
  quantity on hand plus the units the log records as withdrawn from it never changes.

Behaviour of the code that the model keeps:

- The bot finds a product by one rule: the first row, in store order, whose name contains the
  term ignoring case.
- Stock has no lower bound; a withdrawal may drive a quantity negative.
- Sample actions have no guard. Checking out a sample that is already out overwrites its holder
  (`CheckOutOverwrites`). Returning an available sample succeeds.
- An unrecognised sample action leaves the sample unchanged but still logs a row.
- The access block is a deny-list. `VENDAS` is refused on products and `COMPRAS` on samples. A
  role that the dashboard shows neither table to, such as `PUBLIC`, is refused nothing
  (`AccessAgreesWithVisibility`).

## Model

| member | source | states |
|---|---|---|
| Text.Upper | app.py:132 | `upper()` keeps the length, maps each character to its upper-case form and leaves no lower-case letter |
| Text.Lower | app.py:87 | the lower-cased text `ILIKE` compares: same length, each character lower-cased, no upper-case letter left |
| Text.CharCaseRoundTrip | app.py:87 | upper- and lower-casing are inverse on letters and leave every other character alone |
| Text.UpperIdempotent | app.py:132 | upper-casing twice is upper-casing once |
| Text.UpperIgnoresCase | app.py:132 | strings equal up to case upper-case to the same text |
| Text.LowerOfUpper | app.py:87 | lower-casing an upper-cased text gives the lower-cased original |
| Text.ContainsOccurs | app.py:87 | the substring test holds exactly when the term occurs at some position of the name |
| Text.Contains | app.py:87 | `t in s` for the `'%term%'` pattern; `ContainsOccurs` proves it holds exactly when the term occurs at some position |
| Text.Join | app.py:78 | `sep.join(parts)`; `JoinHasPart`, `JoinStartsWithFirst` and `JoinEndsWithLast` state what the joined text holds |
| Text.JoinEndsWithLast | app.py:78 | a join of parts ends with the last part's last character |
| Text.JoinStartsWithFirst | app.py:81 | a join of parts starts with the first part |
| Text.JoinHasPart | app.py:78 | every part occurs in `", ".join(parts)` |
| Text.NatText | app.py:92 | the decimal text of a natural is non-empty, all digits, with no leading zero |
| Text.IntText | app.py:92 | `str(n)`: non-empty, a leading `-` exactly for a negative number, digits after it; `IntTextRoundTrip` reads it back to `n` |
| Text.IntTextRoundTrip | app.py:92 | reading back the printed text of an integer gives the integer |
| Roles.StoredRole | app.py:129-134 | the session role is the upper-cased role name; without a profile, a role or a role name it is `PUBLIC`; it holds no lower-case letter |
| Roles.StoredRoleIgnoresCase | app.py:131-132 | role names equal up to case give the same stored role |
| Roles.StoredRoleStable | app.py:132 | normalising a stored role again changes nothing |
| Roles.SessionRole | app.py:175 | the session role, `PUBLIC` when none is stored |
| Roles.DashboardVisibility | app.py:155-157 | products are visible exactly to ADMINISTRATOR and COMPRAS, samples exactly to ADMINISTRATOR and VENDAS |
| Roles.VisibilityTable | app.py:155-163 | only ADMINISTRATOR sees both tables; a role outside the three sees neither |
| Roles.AccessDenial | app.py:176-180 | `acao` refuses exactly VENDAS on `produto`, with the Almoxarifado text, and COMPRAS on `amostra`, with the Showroom text |
| Roles.AccessAgreesWithVisibility | app.py:177-180 | a role shown a table is never refused on it; a role outside the three is refused on neither |
| Tables.FirstWhere | app.py:87 | `.first()`: the first position satisfying the filter, or none exactly when no row satisfies it |
| Tables.FindByName | app.py:87 | the bot's search returns the first product whose name contains the term ignoring case, or none exactly when no name does |
| Tables.NameMatches | app.py:87 | `nome ILIKE '%term%'`: the lower-cased name contains the lower-cased term; `NameMatchIgnoresCase` and `NameMatchBasics` state its properties |
| Tables.NameMatchIgnoresCase | app.py:87 | upper-casing the term or the name does not change whether they match |
| Tables.NameMatchBasics | app.py:87 | the empty term matches every product, and a name matches itself |
| Tables.FirstMatchUnique | app.py:87 | at most one position is the first match |
| Tables.ProductAt | app.py:186 | the product with the given id, or none exactly when no product has it |
| Tables.SampleAt | app.py:195 | the sample with the given id, or none exactly when no sample has it |
| Tables.ProductAtIsTheRow | app.py:44 | with unique primary keys the lookup finds the one product carrying the key |
| Tables.SampleAtIsTheRow | app.py:51 | with unique primary keys the lookup finds the one sample carrying the key |
| Operations.ReadInt | app.py:188 | `int(form.get(name, default))`: the default when absent, the value when given, a failure exactly when the text is malformed |
| Operations.Withdrawal | app.py:189-190 | the product's quantity drops by exactly the amount; no other field and no other product changes; samples unchanged; exactly one `produto` log row with the product id, amount, action code, user and time |
| Operations.UpdateStock | app.py:85-92 | "Produto não encontrado." exactly when no name contains the term, and then nothing changes; otherwise the first match is withdrawn by `qty` and logged as `SLACK_RETIRADA` by `SlackBot` |
| Operations.UpdatedReply | app.py:92 | the bot's confirmation starts with `A`, so it is never the not-found text, and the product's name and the printed new quantity each occur in it |
| Operations.CheckOut | app.py:198-205 | `retirar` sets status `EM_RUA`, holder, client, address, departure now and due date now + dias days, whatever the previous status, and keeps the row's identity |
| Operations.Return | app.py:206-209 | `devolver` sets status `DISPONIVEL`, clears holder and client, keeps address, departure and due date |
| Operations.CheckOutOverwrites | app.py:198-205 | a second check-out without a return overwrites everything the first one set |
| Operations.ReturnIdempotent | app.py:206-209 | returning twice is returning once |
| Operations.ReturnAfterCheckOut | app.py:198-209 | after a trip and its return the sample is available with no holder and keeps the trip's address and dates |
| Report.LogisticsAgreesWithReport | app.py:198-209 | a checked-out sample counts as out in the status report and a returned one does not |
| Operations.Logistics | app.py:197-209 | the sample after a POST: `retirar` checks out (with `dias` defaulting to 7), `devolver` returns, any other action leaves it as it was; fails exactly when `retirar` has a malformed `dias_prazo` |
| Operations.ProductAction | app.py:185-192 | 404 when no product has the id; a GET changes nothing; a malformed `qtd` fails with nothing changed; a POST withdraws `qtd` (default 1) logged as `WEB_RETIRADA` by the user |
| Operations.SampleAction | app.py:194-213 | 404 when no sample has the id; a GET changes nothing; a POST without an action fails with nothing changed; otherwise only that sample changes, as `Logistics` says, and exactly one `amostra` row with the upper-cased action and quantity 1 is logged |
| Operations.Action | app.py:171-215 | no login: redirect, nothing changes; a refused role: nothing changes; an unknown kind or a GET changes nothing; an allowed `produto` or `amostra` request is exactly `ProductAction` or `SampleAction`; every change appends exactly one log row to the unchanged old log |
| Operations.Dashboard | app.py:145-169 | no login: redirect; otherwise it lists all products exactly to ADMINISTRATOR and COMPRAS and all samples exactly to ADMINISTRATOR and VENDAS |
| Report.LowStock | app.py:77 | the selected products all have `quantidade <= estoque_minimo` |
| Report.IsLow | app.py:77 | the low-stock filter `quantidade <= estoque_minimo`; `LowStockExact` proves the report selects exactly these products |
| Report.LowStockExact | app.py:77 | every low-stock product is selected as often as it is in the table, and no other product is |
| Report.LowStockAppend | app.py:77 | the selection keeps store order (it distributes over concatenation) |
| Report.OutSamples | app.py:80 | the selected samples all have status `EM_RUA` |
| Report.IsOut | app.py:80 | the filter `status == 'EM_RUA'`; `OutSamplesExact` proves the report selects exactly these samples |
| Report.OutSamplesExact | app.py:80 | every sample out is selected as often as it is in the table, and no other sample is |
| Report.OutSamplesAppend | app.py:80 | the selection keeps store order |
| Report.ProductEntry | app.py:78 | a product entry ends with `)` |
| Report.SampleEntry | app.py:81 | `f"{a.nome} com {a.vendedor_responsavel}"`, printing a missing holder as `None`; `SampleEntryHasC` shows it always holds the `c` of " com " |
| Report.StockLine | app.py:78 | the stock half is "Estoque OK" exactly when no product is low |
| Report.SampleLine | app.py:81 | the sample half is "Nenhuma amostra em rua" exactly when no sample is out |
| Report.NoLowStock | app.py:77 | with no low product the selection is empty |
| Report.NoOutSamples | app.py:80 | with no sample out the selection is empty |
| Report.AllClearReport | app.py:77-83 | with nothing low and nothing out the report is the two all-clear texts |
| Report.StockLineNamesLowProduct | app.py:77-78 | every low-stock product's entry occurs in the stock half |
| Report.SampleLineNamesOutSample | app.py:80-81 | every out sample's entry occurs in the sample half |
| Report.ReportNamesLowProduct | app.py:77-83 | every low-stock product is named, with its quantity, in the report |
| Report.ReportNamesOutSample | app.py:80-83 | every sample out is named, with its holder, in the report |
| Report.StatusReport | app.py:74-83 | the report text; `AllClearReport`, `ReportNamesLowProduct` and `ReportNamesOutSample` state what it says |
| Ledger.WithdrawnAppend | app.py:90 | a new log row adds exactly what it records to a product's withdrawn total |
| Ledger.WithdrawalReconciles | app.py:189-190 | a withdrawal logs exactly what it takes: every product's quantity plus logged withdrawals is unchanged, keys stay unique |
| Ledger.SampleChangeReconciles | app.py:211 | a sample POST logs a row that takes nothing from any product and keeps every row's identity |
| Ledger.StepReconciles | app.py:85-92 | one bot or web request keeps every product's balance, every row's identity and unique keys, and logs at most one row |
| Ledger.RunReconciles | app.py:63-71 | over any sequence of requests the log only grows, by at most one row per request, and stock on hand plus logged withdrawals is conserved per product |
| Inventory.Store.constructor | app.py:42-71 | a store holding the given tables with an empty log |
| Inventory.Store.UpdateStock | app.py:85-92 | the in-place bot withdrawal leaves exactly the store and reply of `Operations.UpdateStock` and keeps keys unique |
| Inventory.Store.Action | app.py:171-215 | the in-place `acao` handler leaves exactly the store and reply of `Operations.Action` and keeps keys unique |

## Left out

- Flask routing, redirects and template rendering are not modelled. The session is a parameter (`Roles.Session`), and so are the form fields and the GET/POST method. `logout` only clears the session.
- The Directus login and profile HTTP calls are network I/O, and so is the SSL-warning suppression. Only the role normalisation of the profile reply is modelled. A role whose `name` is null, or which is not an object, makes the code raise. The exception is caught after the token and the new e-mail are already in the session, and `index` never clears the session. The visitor stays logged in and keeps whatever `user_role` the session already held: none on a fresh session, which `dashboard` and `acao` read as `PUBLIC`, or the previous account's role on a second login from the same browser. The raise itself is not modelled; its effect is the input `Session(Some(email), None)` or `Session(Some(email), Some(role))`.
- Slack Bolt setup, the `/slack/events` route and the Gemini configuration belong to foreign services. The bot tools are modelled as plain calls.
- `Operations.ReadInt` takes a numeric form field already sorted into absent, given or malformed (`IntField`). The model does not decide which texts Python's `int()` accepts, such as surrounding whitespace, a leading `+` or `_` separators.
- SQLAlchemy persistence, `commit`, transactions and concurrent requests are not modelled. A request that raises before its commit is modelled as changing nothing. That covers a malformed `dias_prazo` after `retirar` has already set fields in memory, and a missing `acao_amostra`.
- `.first()` and `.all()` carry no `ORDER BY`. They are modelled as store order.
- Operations.Dashboard: states which rows are listed (equal as multisets), not the `ORDER BY nome` / `ORDER BY status DESC, nome` order of the page.
- SQL `LIKE` wildcards (`%`, `_`) and the backslash escape in a search term are matched as literal characters.
- Case folding covers ASCII and the Latin-1 letters only. `ß`, `ÿ`, `µ` and letters outside Latin-1 are left unchanged. Python's `upper()` changes those three letters; PostgreSQL's `lower()`, which `ILIKE` uses, changes upper-case letters outside Latin-1.
- `datetime.now()` is a parameter `now` in seconds, one value per request, although the code reads the clock separately for each field. `timedelta(days=dias)` is `dias * Day`. The overflow of a very large `dias` is not modelled.
- Column widths and NULLs: `id`, `nome`, `quantidade` and `estoque_minimo` are never NULL in the model. 32-bit integer overflow of `quantidade` is not modelled. `String(n)` length limits are not modelled either: the database rejects an over-long value (a `logradouro` over 255 characters, an `acao_amostra` over 50, a session e-mail over 100 in `usuario_nome`), so the request fails and changes nothing, while the model stores the value.
- The bot's `qtd_retirada` is an integer in the model. The code logs the raw argument and subtracts `int(qtd_retirada)`; for a non-integer argument the two could differ.
- The `estoque_minimo` default of 5 and the `Log.data_evento` default apply when a row is created. Product creation is not part of this model; log rows get `now`.
- `Log.id` is the row's position in the log.
