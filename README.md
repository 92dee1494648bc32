# Hotel inventory (hotel_inventario) in Dafny

A model of the inventory core of a Django hotel-inventory system. It covers:

- **Inventory tables**: areas, products, per-area stock rows, the movement log, low-stock alerts, purchase entries and their detail lines. These are the `Tablas` snapshot and the `Inventario` class.
- **Purchase-order tables**: orders, order lines, receptions. These are the `TablasPedidos` snapshot and the `Pedidos` class.
- **Queries on those tables**: product total, the inclusive low-stock test, line values, order numbering.
- **Routines that change the tables**: the demo-data migration (both directions), the `seed_db` command, the alert-raising scripts and the admin bulk actions.
- **Pages**: the dashboard, alerts and product-list views.
- **Users**: the profile access rule.
- **Display helpers**: the template tags and the admin display columns of the report and session admin.

Units and representation:

- Quantities and prices (`Decimal(…, 2)` columns) are integers in hundredths (`Centesimos`).
- A quantity times a price is an integer in ten-thousandths (`Importe`).
- Primary keys are `nat`.
- Timestamps are integers the caller supplies.
- The current time, the supplier and admin lookups, and the random choices are parameters.

Modelling choices:

- A routine that runs inside `transaction.atomic` returns a `Result`. Its in-place method restores the snapshot on an error.
- `poblar_hotel_real.py` runs outside a transaction, so it keeps the alerts created before an error.
- Querysets are taken in table order.

Modules:

- `InventarioModels`, `PedidosModels`, `UsuariosModels`: the model classes of the three apps.
- `MigracionDemo`: migration 0005.
- `SeedDb`: the seed command.
- `CrearAlertas`, `PoblarHotelReal`: the two scripts.
- `InventarioViews`, `InventarioAdmin`, `InventarioTags`, `ReportesViews`, `ReportesAdmin`, `UsuariosAdmin`: the views, admin and template code.
- `Wrappers`, `Texto`, `Aritmetica`: shared helpers for Option/Result, Python's string and integer conversions, and truncating division.

## Model

| member | source | states |
|---|---|---|
| InventarioModels.NuevaAlerta | inventario/models.py:203-217 | a new alert is ACTIVA, unresolved and without resolver, and carries the given product, area and stock snapshot |
| InventarioModels.Buscar | inventario/models.py:103-118 | the (producto, area) lookup finds nothing exactly when no row has that key, and otherwise returns the quantity of a row with that key |
| InventarioModels.Fijar | inventario/migrations/0005_seed_demo_data.py:119-125 | Stock get_or_create then set: the table grows by one exactly when the key was missing, and then the new row is appended |
| InventarioModels.BuscarFijar | inventario/migrations/0005_seed_demo_data.py:119-125 | after the set, the key reads the new quantity and every other key reads as before |
| InventarioModels.FijarPreservaTabla | inventario/models.py:107-118 | the set keeps `unique_together(producto, area)`, and keeps quantities non-negative when the new one is |
| InventarioModels.SumaSinFilas | inventario/models.py:92-96 | an aggregate Sum over no rows is read as `Decimal('0')` |
| InventarioModels.SumaNoNegativa | inventario/models.py:107-112 | with the MinValueValidator(0) on cantidad, any sum of rows is non-negative |
| InventarioModels.SumaCeroSinSeleccion | inventario/models.py:92-96 | a filter that selects no row counts 0 rows and sums to 0 |
| InventarioModels.StockTotalSinFilas | inventario/models.py:92-96 | stock_total of a product with no stock rows is 0 |
| InventarioModels.StockTotalNoNegativo | inventario/models.py:92-96 | stock_total is non-negative when every row is |
| InventarioModels.StockBajoFrontera | inventario/models.py:98-100 | tiene_stock_bajo is inclusive: a total equal to the minimum is low, and 0.01 above it is not |
| InventarioModels.ImporteSiPrecio | inventario/models.py:188-192 | valor_total / subtotal is None exactly when the price is missing or zero |
| InventarioModels.ImporteSiPrecioPropiedades | inventario/models.py:313-317 | with quantity ≥ 0.01 and price ≥ 0, a present subtotal is the exact product and is at least the quantity; `(precio or 0) * cantidad` equals the subtotal with None read as 0 |
| InventarioModels.NetoAgregar | inventario/models.py:145-168 | appending a movement changes a (producto, area) balance by that movement's signed effect |
| InventarioModels.Filtrar | inventario/migrations/0005_seed_demo_data.py:179-183 | `filter(...).delete()` leaves exactly the rows not selected, and no more rows than before |
| InventarioModels.BuscarCodigo | inventario/models.py:61 | the lookup by the unique codigo finds a stored product with that code, or nothing exactly when no product has it |
| InventarioModels.Inventario.Restaurar | reportes/management/commands/seed_db.py:23 | the commit or rollback of a transaction: every table takes the given snapshot |
| PedidosModels.CabeceraPedido | pedidos/models.py:64 | the number's header is "PED-", the year's digits and "-", and the year reads back from it |
| PedidosModels.NumeroPedido | pedidos/models.py:64 | a generated number is the year's header followed by at least four digits that read back as the counter |
| PedidosModels.NumeroPedidoInyectivo | pedidos/models.py:64 | within one year, equal generated numbers come from equal counters (`{count:04d}` can be read back) |
| PedidosModels.NumeroAsignado | pedidos/models.py:58-64 | save keeps an explicit number; for an empty one the number carries the year of fecha_pedido (of the current time when unset) and a counter that reads back as one more than the stored orders of that year |
| PedidosModels.NumeroGeneradoPuedeColisionar | pedidos/models.py:58-65 | a hand-numbered PED-2025-0002 next to one 2025 order makes the generated number collide with a stored one |
| PedidosModels.NumeroPedidoEjemplo | pedidos/models.py:61-64 | the second order of 2025 is numbered PED-2025-0002 |
| PedidosModels.SubtotalLinea | pedidos/models.py:112-114 | the line subtotal is non-negative for non-negative inputs, and 0 at price 0 |
| PedidosModels.Pendiente | pedidos/models.py:116-118 | pending plus received equals ordered; pending is negative exactly when more was received than ordered |
| PedidosModels.EstaCompleto | pedidos/models.py:120-122 | a line is complete exactly when nothing is pending |
| PedidosModels.NuevaLinea | pedidos/models.py:85-95 | a new line has received 0, so with at least 0.01 ordered it is fully pending and not complete |
| PedidosModels.Pedidos.Restaurar | reportes/management/commands/seed_db.py:23 | the transaction's commit or rollback on the order tables |
| PedidosModels.ValidasConPedido | pedidos/models.py:39 | storing an order with a number not yet in use and the next id keeps the order tables' constraints, unique numero_pedido included |
| PedidosModels.Pedidos.Insertar | pedidos/models.py:65 | the INSERT under a given number: the unique error with nothing changed when the number is in use, else the order appended with a fresh id and fecha_pedido stamped; constraints kept |
| PedidosModels.Pedidos.GuardarNuevo | pedidos/models.py:58-65 | inserting an order: the assigned number either clashes (unique error, nothing changes) or the order is appended with that number, a fresh id and fecha_pedido stamped; other tables unchanged; constraints kept |
| MigracionDemo.CodigosDemoSonLosDefinidos | inventario/migrations/0005_seed_demo_data.py:176 | the reverse step's code list is exactly the forward step's product codes, and they are distinct |
| MigracionDemo.DefinicionesDemoValidas | inventario/migrations/0005_seed_demo_data.py:60-69 | the demo definitions satisfy the minimum/price ≥ 0 validators |
| MigracionDemo.NumeroDemo | inventario/migrations/0005_seed_demo_data.py:99 | entry numbers start with "FAC-DEMO-" |
| MigracionDemo.NumeroDemoInyectivo | inventario/migrations/0005_seed_demo_data.py:99 | different positions get different entry numbers |
| MigracionDemo.ConsumoDemo | inventario/migrations/0005_seed_demo_data.py:141-148 | each scenario consumes between 0.01 and 50, and it is exactly 50 only for "agotado" |
| MigracionDemo.RestarConTope | inventario/migrations/0005_seed_demo_data.py:150-154 | decrement-and-clamp gives a non-negative result at least x − c, equal to x − c exactly when x ≥ c |
| MigracionDemo.ClampNoActua | inventario/migrations/0005_seed_demo_data.py:150-154 | with the scenario consumptions the clamp never fires |
| MigracionDemo.AsegurarProducto | inventario/migrations/0005_seed_demo_data.py:76-87 | get_or_create by code returns a stored product with that code; only the product table and the id counter can change, and only by growing |
| MigracionDemo.AsegurarTodos | inventario/migrations/0005_seed_demo_data.py:72-88 | the first loop collects one product per definition and changes only the product table |
| MigracionDemo.PasoDemo | inventario/migrations/0005_seed_demo_data.py:98-166 | one iteration fails with a type error exactly when the price is missing, and with a unique error exactly when the entry number exists; on success products, areas and alerts are untouched |
| MigracionDemo.DemoAborta | inventario/migrations/0005_seed_demo_data.py:93-166 | the first failing product decides the loop's outcome |
| MigracionDemo.PasoDemoEntrada | inventario/migrations/0005_seed_demo_data.py:99-117 | the step appends entry FAC-DEMO-idx whose detail books 50 into the store, and whose total_compra equals the detail's subtotal |
| MigracionDemo.PasoDemoNumero | inventario/migrations/0005_seed_demo_data.py:98-108 | a clean step appends exactly one entry, numbered FAC-DEMO-idx, and keeps the earlier ones |
| MigracionDemo.NumerosDemoPaso | inventario/migrations/0005_seed_demo_data.py:93-108 | entries numbered FAC-DEMO-1 to -n followed by FAC-DEMO-(n+1) are numbered 1 to n+1 in order |
| MigracionDemo.ConEntradaDemoUltima | inventario/migrations/0005_seed_demo_data.py:99-117 | the entry phase keeps the earlier entries, appends FAC-DEMO-idx and one detail of 50 units into the store, and the entry's total equals that detail's subtotal |
| MigracionDemo.PasoDemoStock | inventario/migrations/0005_seed_demo_data.py:119-154 | afterwards the store row holds 50 minus the consumption, and every other row reads as before |
| MigracionDemo.PasoDemoNeto | inventario/migrations/0005_seed_demo_data.py:127-166 | the ENTRADA and SALIDA movements change the store balance by 50 minus the consumption, and no other balance |
| MigracionDemo.PasoDemoCuadra | inventario/migrations/0005_seed_demo_data.py:119-138 | the stock table and the movement log stay in agreement through a step exactly when the store held none of the product before |
| MigracionDemo.PasoDemoValido | inventario/migrations/0005_seed_demo_data.py:98-166 | a step keeps every table constraint |
| MigracionDemo.ConEntradaDemoValida | inventario/migrations/0005_seed_demo_data.py:99-117 | the entry and its detail keep every table constraint |
| MigracionDemo.ConStockDemoValida | inventario/migrations/0005_seed_demo_data.py:119-166 | the store row set to 50, then decremented with the clamp, with its two movements, keeps every table constraint |
| MigracionDemo.AsegurarProductoValido | inventario/migrations/0005_seed_demo_data.py:76-87 | get_or_create keeps every table constraint |
| MigracionDemo.AsegurarTodosValido | inventario/migrations/0005_seed_demo_data.py:72-88 | the first loop keeps every table constraint |
| MigracionDemo.DemoValido | inventario/migrations/0005_seed_demo_data.py:93-166 | the second loop keeps every table constraint |
| MigracionDemo.DemoFuera | inventario/migrations/0005_seed_demo_data.py:93-166 | stock rows of products the loop does not visit are unchanged |
| MigracionDemo.DemoCuadra | inventario/migrations/0005_seed_demo_data.py:93-166 | distinct products with empty store rows leave the ledger and the movement log in agreement |
| MigracionDemo.AsegurarTodosElegidos | inventario/migrations/0005_seed_demo_data.py:72-88 | the k-th collected product is stored and has the k-th definition's code |
| MigracionDemo.AsegurarTodosDistintos | inventario/migrations/0005_seed_demo_data.py:72-93 | distinct codes give distinct products, so the second loop visits each product once |
| MigracionDemo.CrearDemoCuadra | inventario/migrations/0005_seed_demo_data.py:6-166 | from an agreeing ledger with an empty store, the whole forward step leaves the ledger in agreement |
| MigracionDemo.DemoNumera | inventario/migrations/0005_seed_demo_data.py:93-108 | the loop appends one entry per product, numbered FAC-DEMO-1, -2, … in order, and keeps the earlier entries |
| MigracionDemo.AsegurarProductos | inventario/migrations/0005_seed_demo_data.py:72-88 | the in-place first loop ends in the state and the products AsegurarTodos computes, with constraints kept |
| MigracionDemo.AsegurarUno | inventario/migrations/0005_seed_demo_data.py:76-87 | one in-place Producto get_or_create ends in the tables and the product AsegurarProducto gives |
| MigracionDemo.RegistrarDemo | inventario/migrations/0005_seed_demo_data.py:98-166 | the in-place iteration ends in PasoDemo's tables, or reports its error with nothing changed |
| MigracionDemo.RegistrarEntradaDemo | inventario/migrations/0005_seed_demo_data.py:99-117 | the in-place entry and detail creation ends in ConEntradaDemo's tables |
| MigracionDemo.AjustarStockDemo | inventario/migrations/0005_seed_demo_data.py:119-166 | the in-place stock get_or_create, the entry movement and the clamped consumption end in ConStockDemo's tables |
| MigracionDemo.CrearDatosDemo | inventario/migrations/0005_seed_demo_data.py:6-166 | without a superuser nothing changes; otherwise the tables become the forward step's result, or are rolled back with its error |
| MigracionDemo.RegistrarTodos | inventario/migrations/0005_seed_demo_data.py:93-166 | the in-place second loop ends in the forward step's tables, or returns its first error |
| MigracionDemo.IdsDemo | inventario/migrations/0005_seed_demo_data.py:176-178 | the selected ids are exactly those of stored products with a demo code |
| MigracionDemo.BorrarEntradas | inventario/migrations/0005_seed_demo_data.py:181 | deleting entries leaves no selected entry, and no detail line of a deleted entry (CASCADE) |
| MigracionDemo.EliminarDemoConservaEntradas | inventario/migrations/0005_seed_demo_data.py:179-181 | as written, the reverse step deletes no entry, although every demo detail line is gone |
| MigracionDemo.EliminarDemoQuita | inventario/migrations/0005_seed_demo_data.py:179-183 | the written and the corrected reverse steps agree on stock rows, movements, products and alerts |
| MigracionDemo.EliminarDemoProtegido | inventario/migrations/0005_seed_demo_data.py:183 | the reverse step fails with a PROTECT error exactly when an order line is for a demo product, in both versions |
| MigracionDemo.EliminarDemoCorregidoCompleto | inventario/migrations/0005_seed_demo_data.py:179-183 | the corrected reverse step leaves no demo product, stock row, movement, alert, detail line, or entry that carried a demo line, and keeps every other entry and product |
| MigracionDemo.EntradaDemoSobrevive | inventario/migrations/0005_seed_demo_data.py:180-181 | an entry that carried a demo line survives as written and is deleted when corrected |
| MigracionDemo.EliminarDemoValido | inventario/migrations/0005_seed_demo_data.py:169-183 | the reverse step keeps every table constraint |
| MigracionDemo.EliminarDatosDemo | inventario/migrations/0005_seed_demo_data.py:169-183 | the in-place reverse step ends in EliminarDemo's tables, or is rolled back with its error |
| InventarioViews.Insertar | inventario/views.py:52 | inserting into a key-ordered list keeps it ordered and adds exactly the element |
| InventarioViews.CotaPorUltimo | inventario/views.py:52 | everything in a permutation of the earlier elements plus the inserted one sorts no later than the last element |
| InventarioViews.Ordenar | inventario/views.py:52 | `sorted(..., key=...)` is ordered by the key and is a permutation of its input |
| InventarioViews.TextoTotal | inventario/views.py:125 | any two texts are comparable in the code-point order |
| InventarioViews.TextoAntisimetrico | inventario/views.py:125 | texts each no later than the other are equal |
| InventarioViews.TextoTransitivo | inventario/views.py:125 | the code-point order on text is transitive |
| InventarioViews.ProductoTotal | inventario/views.py:125 | any two products are comparable by (category name, name) |
| InventarioViews.ProductoTransitivo | inventario/views.py:125 | the (category name, name) order is transitive |
| InventarioViews.InsertarProducto | inventario/views.py:125 | inserting into a list sorted by (category name, name) keeps it sorted and adds exactly the product |
| InventarioViews.OrdenarProductos | inventario/views.py:125 | `order_by('categoria__nombre', 'nombre')` is sorted by category name then name and is a permutation of its input |
| InventarioViews.Activas | inventario/views.py:35 | `filter(estado='ACTIVA')` keeps exactly the ACTIVA alerts of the table |
| InventarioViews.FiltrarPrefijo | inventario/views.py:39 | rows selected from a prefix of the table are a prefix of the rows selected from the table |
| InventarioViews.PrimerasActivas | inventario/views.py:39 | `[:10]` is the first min(10, n) active alerts in queryset order |
| InventarioViews.PorcentajeDashboard | inventario/views.py:40 | `int(actual / minimo * 100)` truncates toward zero (bounds for both signs), and is 0 when the minimum is not positive |
| InventarioViews.FilaDeAlerta | inventario/views.py:40-50 | a dashboard row is critical exactly when its percentage is below 50 |
| InventarioViews.FilasDashboard | inventario/views.py:39-50 | one row per alert, in order |
| InventarioViews.ClaveDashboardEsPorcentaje | inventario/views.py:52 | on dashboard rows, the key (critical-first, percentage) orders exactly as the percentage alone |
| InventarioViews.DashboardCriticosPrimero | inventario/views.py:51-52 | in dashboard order no critical row follows a non-critical one, and percentages ascend within a group |
| InventarioViews.Dashboard | inventario/views.py:35-52 | the active-alert count, and at most ten rows: a sorted permutation of the rows of the first ten active alerts |
| InventarioViews.FilasPrimerasActivas | inventario/views.py:39-50 | the loop builds exactly the rows of the first ten active alerts, in queryset order |
| InventarioViews.PrimerasActivasAlParar | inventario/views.py:39 | stopping at the end of the table or at the tenth active alert leaves exactly the first ten |
| InventarioViews.FilaPagina | inventario/views.py:164-170 | the alerts-page percentage is the exact fraction actual·100/minimum (0 for a non-positive minimum); critical exactly below 50 |
| InventarioViews.CriticoCoincide | inventario/views.py:164-165 | the alerts page (exact) and the dashboard (truncated) agree on which alerts are critical |
| InventarioViews.FilasPagina | inventario/views.py:163-170 | one alerts-page row per alert, in order |
| InventarioViews.AlertasOrdenEscrito | inventario/views.py:171-172 | with the written key and `reverse=True`, every non-critical alert precedes every critical one, newest first within each group |
| InventarioViews.AlertasOrdenCorregido | inventario/views.py:171-172 | with the corrected key, critical alerts come first, newest first within each group |
| InventarioViews.AlertasStock | inventario/views.py:159-178 | the page as written: a permutation of the rows of the active alerts, sorted with the written key |
| InventarioViews.AlertasStockCorregido | inventario/views.py:171-172 | the page with the order its comment describes: the same rows, sorted critical-first |
| InventarioViews.FilasSonActivas | inventario/views.py:163 | every row of either page is for an ACTIVA alert of the table |
| InventarioViews.StockPorArea | inventario/views.py:59-72 | one row per active area in order, with its stock-row count and quantity sum (0 with no rows, non-negative with valid rows) |
| InventarioViews.FilaDeArea | inventario/views.py:63-72 | an area's row carries its stock-row count and quantity sum; the sum is 0 without rows and not negative over valid rows |
| InventarioViews.AreaLlamada | inventario/views.py:111-115 | `Area.objects.get(nombre, activo=True)` fails exactly when several active areas have the name; DoesNotExist is tolerated (None exactly when none matches); a found id belongs to a matching area |
| InventarioViews.ListaFiltrada | inventario/views.py:97-125 | exactly the active products that pass the area and search filters, each once as in the table, sorted by category name then name |
| InventarioViews.AreaSeleccionada | inventario/views.py:100-115 | None without a parameter; the parsed id for an integer parameter; for a name, the id of the single active area so named, None exactly when no active area has it, an error exactly when several do |
| InventarioViews.FiltrarProductos | inventario/views.py:95-134 | the page holds the filtered sorted products and the selected area, or fails exactly for a non-integer area name shared by several active areas |
| InventarioViews.FiltroPorId | inventario/views.py:103-106 | a parameter that is the decimal form of an id filters by stock in that area |
| InventarioViews.FiltroPorNombre | inventario/views.py:107-109 | a parameter not starting with a digit or a sign filters by area name |
| InventarioViews.BusquedaSinMayusculas | inventario/views.py:117-122 | the icontains search gives the same result for a lower-cased term |
| InventarioAdmin.Marcada | inventario/admin.py:111 | the update sets estado and resuelto_por and nothing else |
| InventarioAdmin.Marcar | inventario/admin.py:111 | the update keeps the table's length |
| InventarioAdmin.ContarQueryset | inventario/admin.py:112 | `queryset.count()` is the number of table positions the queryset matches |
| InventarioAdmin.PosicionesUltima | inventario/admin.py:112 | the matched positions are those before the last row, plus the last one when it matches |
| InventarioAdmin.MarcarEfecto | inventario/admin.py:110-111 | rows in the queryset get the new state and the acting user as resolver; other rows are unchanged; fecha_resolucion is never set |
| InventarioAdmin.MarcarIdempotente | inventario/admin.py:110-118 | applying the same action twice is applying it once |
| InventarioAdmin.MensajeEscritoCuentaCero | inventario/admin.py:110-118 | under the change-list filter estado=ACTIVA, the message re-counts after the update and reports 0 for any selection |
| InventarioAdmin.SinCoincidencias | inventario/admin.py:112 | a queryset matching no row counts 0 |
| InventarioAdmin.MensajeCorregidoCuenta | inventario/admin.py:110-118 | counted before the update, the message is the number of rows the update wrote: each of them has the new state and resolver, every other row is unchanged; a matching row makes it at least 1 |
| InventarioAdmin.Actualizar | inventario/admin.py:111 | the in-place update writes exactly Marcar's table and changes no other table |
| InventarioAdmin.MarcarComoCorregido | inventario/admin.py:110-118 | the action with the count taken before the update: the same update, and a message equal to the number of matched rows |
| InventarioAdmin.MarcarComo | inventario/admin.py:110-118 | the in-place update writes exactly the queryset rows (Marcar), changes no other table, and reports the count taken again after it |
| InventarioAdmin.MarcarComoResuelta | inventario/admin.py:110-112 | the RESUELTA action, as MarcarComo |
| InventarioAdmin.MarcarComoIgnorada | inventario/admin.py:115-117 | the IGNORADA action, as MarcarComo |
| InventarioAdmin.StockTotalDisplay | inventario/admin.py:54-59 | highlighted exactly when tiene_stock_bajo holds (total ≤ minimum), with the lower-cased unit label |
| InventarioAdmin.SinStockResaltado | inventario/admin.py:54-59 | a product without stock rows shows 0 and is highlighted |
| InventarioAdmin.ConRegistrador | inventario/admin.py:145-148 | a new entry takes the acting user as registrado_por; an edit changes nothing; no other field changes |
| InventarioAdmin.RegistradorPermanece | inventario/admin.py:145-148 | an edit by any user after creation keeps the creating user as registrado_por |
| SeedDb.SemillasDefinidasValidas | reportes/management/commands/seed_db.py:128-136 | the seeded product rows have pairwise distinct codes and a non-negative minimum and price |
| SeedDb.Meta | reportes/management/commands/seed_db.py:158-168 | every area type's target is at least 10 |
| SeedDb.ElevarEfecto | reportes/management/commands/seed_db.py:170-174 | the row ends at max(old, target), with a missing row read as 0; no other row changes |
| SeedDb.ElevarPreservaTabla | reportes/management/commands/seed_db.py:170-174 | the raise keeps unique keys and non-negative quantities |
| SeedDb.ElevarRompeLibro | reportes/management/commands/seed_db.py:170-174 | raising a row writes no movement, so a ledger that agreed with the log no longer does |
| SeedDb.ElevarEnAreasFuera | reportes/management/commands/seed_db.py:157-174 | rows of other products, and of areas not in the list, are untouched |
| SeedDb.ElevarEnAreasMeta | reportes/management/commands/seed_db.py:157-174 | every area gets a row of the product holding max(old, target of its type) |
| SeedDb.ElevarEnAreasValida | reportes/management/commands/seed_db.py:157-174 | the inner loop keeps the stock table valid |
| SeedDb.Reemplazar | reportes/management/commands/seed_db.py:152-154 | `producto.save()` keeps the product table's length |
| SeedDb.AsegurarSemilla | reportes/management/commands/seed_db.py:139-154 | the product has the seeded code, price and minimum; an existing one keeps its id, name, category, unit and active flag, and the table's size; a new one is appended with the next id and the seeded fields |
| SeedDb.SembrarUno | reportes/management/commands/seed_db.py:138-174 | one product iteration changes no movement, area, alert, entry or detail |
| SeedDb.SembrarProductosSinMovimientos | reportes/management/commands/seed_db.py:123-174 | the product step adds no movement or entry, and changes no area |
| SeedDb.AsegurarSemillaValida | reportes/management/commands/seed_db.py:139-154 | get_or_create-and-overwrite keeps every table constraint |
| SeedDb.SembrarUnoValido | reportes/management/commands/seed_db.py:138-174 | one iteration keeps every table constraint |
| SeedDb.SembrarProductosValido | reportes/management/commands/seed_db.py:123-174 | the product step keeps every table constraint |
| SeedDb.ElevarStocks | reportes/management/commands/seed_db.py:157-174 | the in-place inner loop sets the stock table to ElevarEnAreas and changes nothing else |
| SeedDb.ElevarEnArea | reportes/management/commands/seed_db.py:158-173 | one area's stock get_or_create raises that row to its area type's target and changes nothing else |
| SeedDb.SembrarProducto | reportes/management/commands/seed_db.py:138-174 | the in-place iteration ends in SembrarUno's tables and returns the seeded product |
| SeedDb.CrearProductosYStocks | reportes/management/commands/seed_db.py:123-174 | the in-place product step ends in SembrarProductos' tables, with constraints kept |
| SeedDb.Primeros | reportes/management/commands/seed_db.py:199 | `[:n]` is a prefix of length min(n, size) |
| SeedDb.PrimeraBodega | reportes/management/commands/seed_db.py:203 | `.first()` of the BODEGA areas is None exactly when there is none, and otherwise the id of a BODEGA area |
| SeedDb.PasoDetalle | reportes/management/commands/seed_db.py:199-218 | the detail get_or_create fails exactly when there is no BODEGA area or several details match; otherwise only details, movements and the id counter can change |
| SeedDb.PasoDetalleMovimiento | reportes/management/commands/seed_db.py:200-218 | a movement is appended exactly when the detail is new; it records the new detail of 50 into the bodega; a found detail changes nothing |
| SeedDb.PasoDetalleRompeLibro | reportes/management/commands/seed_db.py:206-218 | the movement is written without touching Stock, so the bodega row ends 50 short of its movements |
| SeedDb.TotalEsSumaDeSubtotales | reportes/management/commands/seed_db.py:219 | the loop's total equals the sum of the details' subtotals, with None read as 0 |
| SeedDb.DetallesAborta | reportes/management/commands/seed_db.py:199-219 | an error in an iteration decides the loop's outcome |
| SeedDb.DetallesConserva | reportes/management/commands/seed_db.py:199-219 | the loop changes only details, movements and the id counter |
| SeedDb.DetallesUnicos | reportes/management/commands/seed_db.py:199-205 | after the loop over distinct products, each product's lookup finds exactly the detail the loop used for it |
| SeedDb.EncuentraPaso | reportes/management/commands/seed_db.py:199-205 | one more product, distinct from the earlier ones, keeps every lookup finding exactly its own detail |
| SeedDb.DetallesSinCambios | reportes/management/commands/seed_db.py:199-206 | a loop whose every lookup finds its detail changes nothing |
| SeedDb.DetallesSinCambiosPaso | reportes/management/commands/seed_db.py:199-206 | a last lookup that finds exactly its detail extends an unchanged prefix to an unchanged loop |
| SeedDb.DetallesRepetidos | reportes/management/commands/seed_db.py:199-219 | re-running the loop on its own result changes nothing and uses the same details |
| SeedDb.FijarTotal | reportes/management/commands/seed_db.py:221-222 | saving the total keeps the entry table's length |
| SeedDb.EntradaSemilla | reportes/management/commands/seed_db.py:184-193 | FAC-0001 exists afterwards |
| SeedDb.SembrarEntradasEfecto | reportes/management/commands/seed_db.py:176-222 | the step touches no stock row, product, area or alert; FAC-0001 exists afterwards and carries the total of the loop's details |
| SeedDb.FijarTotalIdempotente | reportes/management/commands/seed_db.py:221-222 | saving the same total twice is saving it once |
| SeedDb.SembrarEntradasIdempotente | reportes/management/commands/seed_db.py:176-222 | running the entry step again changes nothing: no movement is duplicated and the total is the same |
| SeedDb.PasoDetalleValido | reportes/management/commands/seed_db.py:199-218 | an iteration keeps every table constraint |
| SeedDb.DetallesValido | reportes/management/commands/seed_db.py:199-219 | the loop keeps every table constraint |
| SeedDb.SembrarEntradasValido | reportes/management/commands/seed_db.py:176-222 | the entry step keeps every table constraint |
| SeedDb.RegistrarDetalle | reportes/management/commands/seed_db.py:199-219 | the in-place iteration ends in PasoDetalle's tables, or reports its error with nothing changed |
| SeedDb.CrearEntradasMovimientos | reportes/management/commands/seed_db.py:176-222 | the in-place entry step ends in SembrarEntradas' tables, or is rolled back with its error |
| SeedDb.RegistrarDetalles | reportes/management/commands/seed_db.py:199-219 | the in-place detail loop ends in Detalles' tables and returns the total of its details, or is rolled back with its error |
| SeedDb.CodigosSemillaDistintos | reportes/management/commands/seed_db.py:128-136 | no two seeded product definitions share a code |
| SeedDb.SembrarProductosNoVacio | reportes/management/commands/seed_db.py:138-154 | after seeding a non-empty list of definitions the product table is not empty |
| SeedDb.PasoDetalleEscrito | reportes/management/commands/seed_db.py:200-218 | as written, the iteration fails with TypeError exactly when a BODEGA area exists and no detail matches, that is when the detail is new; when it succeeds it is the intended iteration and changes nothing |
| SeedDb.DetallesEscritoSinCrear | reportes/management/commands/seed_db.py:199-219 | where the loop as written succeeds, it equals the intended loop and has created no detail and no movement |
| SeedDb.DetallesEscritoFalla | reportes/management/commands/seed_db.py:199-219 | as written, with a BODEGA area and no detail under the entry yet, the loop over any non-empty product list fails with TypeError |
| SeedDb.SembrarEscritoFalla | reportes/management/commands/seed_db.py:176-222 | as written, on any database with an admin user, a supplier and a BODEGA area but no FAC-0001 detail, handle ends with TypeError and both table sets exactly as before |
| SeedDb.BuscarPedido | reportes/management/commands/seed_db.py:230 | the lookup by number finds a stored order with that number, or nothing exactly when none has it |
| SeedDb.PedidoSemilla | reportes/management/commands/seed_db.py:230-234 | PED-2025-0001 is stored afterwards; only the orders and the id counter can change |
| SeedDb.AsegurarLinea | reportes/management/commands/seed_db.py:239-243 | a line for (order, product) exists afterwards; only lines and the id counter can change |
| SeedDb.AsegurarLineas | reportes/management/commands/seed_db.py:238-243 | the line loop changes only lines and the id counter |
| SeedDb.Mitad | reportes/management/commands/seed_db.py:248 | half of a non-negative quantity lies between 0 and it, is strictly below a positive one, and is exact for even hundredths |
| SeedDb.RecibirLineas | reportes/management/commands/seed_db.py:247-252 | the reception keeps the line table's length |
| SeedDb.RecibirMitadEfecto | reportes/management/commands/seed_db.py:246-252 | the reception sets, not adds: each line of the order ends with half its ordered quantity and stays pending; other lines and every order are unchanged; one reception is added |
| SeedDb.RecibirLineasIdempotente | reportes/management/commands/seed_db.py:247-252 | receiving twice leaves the lines as receiving once |
| SeedDb.AsegurarLineasExisten | reportes/management/commands/seed_db.py:238-243 | every product gets a line of the order, and earlier lines are kept as a prefix |
| SeedDb.AsegurarLineasSinCambios | reportes/management/commands/seed_db.py:238-243 | when every line exists, the loop changes nothing |
| SeedDb.ExisteLineaRecibida | reportes/management/commands/seed_db.py:247-252 | the reception removes no line |
| SeedDb.MismoNumeroMismoPedido | pedidos/models.py:39 | with unique numbers, an order is determined by its number |
| SeedDb.PedidoSemillaUnico | reportes/management/commands/seed_db.py:230-234 | the order get_or_create keeps order numbers unique |
| SeedDb.SembrarPedidosDosVeces | reportes/management/commands/seed_db.py:224-252 | a second run leaves orders and lines as the first left them, and adds one more reception |
| SeedDb.AsegurarLineaValida | reportes/management/commands/seed_db.py:239-243 | a line get_or_create keeps the order-table constraints |
| SeedDb.AsegurarLineasValida | reportes/management/commands/seed_db.py:238-243 | the line loop keeps the order-table constraints |
| SeedDb.RecibirMitadValida | reportes/management/commands/seed_db.py:246-252 | the reception keeps the order-table constraints |
| SeedDb.SembrarPedidosValido | reportes/management/commands/seed_db.py:224-252 | the order step keeps the order-table constraints |
| SeedDb.RecibirMitadEnSitio | reportes/management/commands/seed_db.py:246-252 | the in-place reception loop ends in RecibirMitad's tables |
| SeedDb.CrearPedidosYRecepciones | reportes/management/commands/seed_db.py:224-252 | the in-place order step ends in SembrarPedidos' tables, with constraints kept |
| SeedDb.ObtenerPedidoSemilla | reportes/management/commands/seed_db.py:229-233 | the in-place get_or_create of PED-2025-0001 ends in PedidoSemilla's tables and order |
| SeedDb.AsegurarLineaEnSitio | reportes/management/commands/seed_db.py:239-243 | one in-place DetallePedido get_or_create ends in AsegurarLinea's tables |
| SeedDb.Sembrar | reportes/management/commands/seed_db.py:21-31 | handle: on success both table sets take the three steps' results; an error in the entry step rolls back the product step too |
| CrearAlertas.AlertaPara | crear_alertas.py:27-51 | only the alerts change, by appending at most one; one is appended exactly when the code is known and its product has no ACTIVA alert |
| CrearAlertas.AlertaParaNueva | crear_alertas.py:39-44 | the new alert is ACTIVA, has no area, and snapshots the product's stock total and minimum, low or not |
| CrearAlertas.CrearAlertasPrueba | crear_alertas.py:27-51 | the loop only appends alerts |
| CrearAlertas.TieneActivaPrefijo | crear_alertas.py:32-35 | an ACTIVA alert stays present when rows are appended |
| CrearAlertas.CrearAlertasCubre | crear_alertas.py:27-46 | afterwards every known code's product has an ACTIVA alert |
| CrearAlertas.CrearAlertasSinEfecto | crear_alertas.py:31-37 | when every known product already has its ACTIVA alert, nothing changes |
| CrearAlertas.CrearAlertasIdempotente | crear_alertas.py:27-51 | re-running the script, at any later time, creates no alert |
| CrearAlertas.AlertaParaUnica | crear_alertas.py:31-44 | one code never gives a product a second ACTIVA alert |
| CrearAlertas.CrearAlertasUnica | crear_alertas.py:27-51 | the loop keeps at most one ACTIVA alert per product |
| CrearAlertas.CrearAlertasDePrueba | crear_alertas.py:16-51 | the in-place script ends in CrearAlertasPrueba's tables over its four codes |
| CrearAlertas.AlertaDePrueba | crear_alertas.py:28-51 | one in-place iteration ends in AlertaPara's tables |
| PoblarHotelReal.CantidadBase | poblar_hotel_real.py:152-155 | whole units: in a "Habitaciones" area a quarter of the truncated minimum, rounded down; elsewhere the truncated minimum times the factor |
| PoblarHotelReal.ColocarStockEfecto | poblar_hotel_real.py:163-167 | get_or_create only appends: an existing (product, area) row keeps its quantity, a missing one takes the chosen quantity, other keys are unchanged |
| PoblarHotelReal.ColocarStockPreservaTabla | poblar_hotel_real.py:163-167 | with a non-negative quantity the stock table stays valid |
| PoblarHotelReal.MinimoEntero | poblar_hotel_real.py:180 | `int(stock_minimo)` truncates toward zero to whole units (bounds for both signs) |
| PoblarHotelReal.AmeritaImplicaStockBajo | poblar_hotel_real.py:180 | with a non-negative minimum, the script's test implies tiene_stock_bajo |
| PoblarHotelReal.AmeritaMinimoEntero | poblar_hotel_real.py:180 | for a whole-unit minimum, the script's test is total ≤ minimum |
| PoblarHotelReal.UmbralTruncadoDifiere | poblar_hotel_real.py:180 | 10.25 against a minimum of 10.50 is low on stock, yet raises no alert |
| PoblarHotelReal.SinActivas | poblar_hotel_real.py:181-183 | the (producto, ACTIVA) lookup is empty exactly when the product has no ACTIVA alert |
| PoblarHotelReal.ActivasAlMenosUna | poblar_hotel_real.py:181-183 | under the one-active-alert invariant the lookup finds at most one row |
| PoblarHotelReal.AlertaPoblar | poblar_hotel_real.py:178-191 | fails exactly when the test holds and two ACTIVA alerts exist; otherwise only alerts change, by appending; created exactly when flagged; a created alert is warranted, ACTIVA and snapshots total and minimum |
| PoblarHotelReal.GenerarAlertas | poblar_hotel_real.py:174-191 | the loop only appends alerts, as many as it counts |
| PoblarHotelReal.GenerarAlertasCorrecto | poblar_hotel_real.py:177-191 | from tables with at most one ACTIVA alert per product, the loop never fails, keeps the invariant, and adds only warranted ACTIVA alerts |
| PoblarHotelReal.GenerarAlertasCubre | poblar_hotel_real.py:177-191 | every product the test flags ends with an ACTIVA alert |
| PoblarHotelReal.AlertaPoblarCubre | poblar_hotel_real.py:177-191 | a flagged product never fails under the one-active-alert invariant and leaves its iteration with an ACTIVA alert, found or created |
| PoblarHotelReal.ActivaSePreserva | poblar_hotel_real.py:180-187 | an ACTIVA alert stays present when rows are appended |
| PoblarHotelReal.GenerarAlertasStockBajo | poblar_hotel_real.py:174-192 | the in-place loop ends in GenerarAlertas' tables and count, and reports its error; alerts created before an error are kept |
| PoblarHotelReal.RevisarProducto | poblar_hotel_real.py:178-191 | one in-place iteration ends in AlertaPoblar's tables and reports whether it created an alert, or its error with nothing changed |
| PoblarHotelReal.AvanzarAlertas | poblar_hotel_real.py:178-191 | one iteration with its counter: the tables, count and failure become Avance's |
| PoblarHotelReal.PrefijoConFallo | poblar_hotel_real.py:177-191 | once the loop has failed, the remaining products change nothing |
| UsuariosModels.TipoDeAcceso | usuarios/models.py:18-25 | a restricted access option names an area type other than RECEPCION |
| UsuariosModels.AccesoTotal | usuarios/models.py:59-60 | administrators and TODAS profiles may enter every area |
| UsuariosModels.AccesoEscrito | usuarios/models.py:57-61 | as written, a restricted non-administrator may enter an area exactly when the option names its type and is not "Solo Habitaciones" |
| UsuariosModels.HabitacionesSinAcceso | usuarios/models.py:57-61 | a HOUSEKEEPING profile with access HABITACIONES is refused a HABITACION area |
| UsuariosModels.AccesoCorregido | usuarios/models.py:57-61 | corrected, a restricted non-administrator may enter an area exactly when the option names its type |
| UsuariosModels.CorregidoSoloHabitaciones | usuarios/models.py:57-61 | the correction changes the answer only for "Solo Habitaciones" profiles |
| UsuariosModels.PerfilNuevo | usuarios/models.py:64-68 | a profile created for a new user is GARZON, with access TODAS, active, and has no permissions |
| UsuariosModels.PerfilNuevoAccede | usuarios/models.py:64-68 | a new profile may enter every area and is not an administrator |
| UsuariosModels.CrearPerfilUsuario | usuarios/models.py:64-68 | only a created user gets a profile; a second profile for the same user is a unique error |
| UsuariosModels.CrearPerfilPreserva | usuarios/models.py:27 | the signal keeps one profile per user (OneToOne), and a created user has a profile afterwards |
| UsuariosModels.Duracion | usuarios/models.py:95-99 | the duration exists exactly when the session has ended, and is end minus start |
| UsuariosModels.DuracionCerrada | usuarios/models.py:95-99 | closing a session at fin gives duration fin − start; an open one has none |
| UsuariosAdmin.HorasMinutos | usuarios/admin.py:63-65 | hours and minutes (minutes < 60) locate the seconds within one minute |
| UsuariosAdmin.HorasMinutosUnico | usuarios/admin.py:63-65 | that split is the only one |
| UsuariosAdmin.DuracionDisplay | usuarios/admin.py:60-67 | "<h>h <m>m" for a non-zero duration, otherwise "En curso" if active and "N/A" if not |
| UsuariosAdmin.DuracionDisplayEjemplo | usuarios/admin.py:60-66 | 3725 seconds show "1h 2m" |
| UsuariosAdmin.DuracionCeroSinHoras | usuarios/admin.py:60-67 | a zero-length session reads as "En curso" or "N/A", never "0h 0m" |
| InventarioTags.PonerEfecto | inventario/templatetags/inventario_tags.py:16 | `query_dict[key] = value` makes key's list [value], keeps other keys, and keeps key order (appending a new key) |
| InventarioTags.QuitarEfecto | inventario/templatetags/inventario_tags.py:17-18 | `del query_dict[key]` removes key and keeps the others |
| InventarioTags.PonerQuitarDistintas | inventario/templatetags/inventario_tags.py:14-18 | set and delete keep keys distinct |
| InventarioTags.ConsultaResultanteEfecto | inventario/templatetags/inventario_tags.py:14-18 | after the loop each key holds the text of its last truthy kwarg, is absent after a falsy one, and is unchanged when not named |
| InventarioTags.Utf8 | inventario/templatetags/inventario_tags.py:20 | a character encodes to 1–4 bytes, and ASCII to itself |
| InventarioTags.PorCiento | inventario/templatetags/inventario_tags.py:20 | %XX escaping writes three upper-case hex characters per byte |
| InventarioTags.Escapar | inventario/templatetags/inventario_tags.py:20 | quote_plus output contains only unreserved characters, '+', '%' and hex digits |
| InventarioTags.EscaparSinSeparadores | inventario/templatetags/inventario_tags.py:20 | an escaped value never contains '&' or '=' |
| InventarioTags.EscaparAlfanumerico | inventario/templatetags/inventario_tags.py:20 | unreserved text escapes to itself |
| InventarioTags.UrlConParametros | inventario/templatetags/inventario_tags.py:6-20 | "" when the resulting query is empty, otherwise "?" + its urlencode |
| InventarioTags.FalsosSinEfecto | inventario/templatetags/inventario_tags.py:14-18 | falsy kwargs for absent keys leave the query unchanged |
| InventarioTags.ObtenerItem | inventario/templatetags/inventario_tags.py:22-27 | `dict.get(key)` is present exactly when the key is, with its value |
| InventarioTags.ObtenerItemTrasGuardar | inventario/templatetags/inventario_tags.py:22-27 | after storing v at k, get_item reads v at k and the old value elsewhere |
| InventarioTags.Miles | inventario/templatetags/inventario_tags.py:35 | grouping adds one separator per three digits |
| InventarioTags.MilesSinPuntos | inventario/templatetags/inventario_tags.py:35 | removing the separators gives back the digits |
| InventarioTags.MilesPosiciones | inventario/templatetags/inventario_tags.py:35 | separators sit exactly every fourth position from the right |
| InventarioTags.FormatCurrency | inventario/templatetags/inventario_tags.py:29-37 | a value int() rejects is returned unchanged; otherwise "$" and at least one more character |
| InventarioTags.FormatCurrencyRoundTrip | inventario/templatetags/inventario_tags.py:34-35 | reading the formatted text back without "$" and the dots gives int(value) |
| InventarioTags.LeerGrupos | inventario/templatetags/inventario_tags.py:34-35 | removing the dots from the signed, grouped digits and parsing gives the integer back |
| InventarioTags.FormatCurrencyEjemplo | inventario/templatetags/inventario_tags.py:35 | -1234.99 formats as "$-1.234" (int() truncates toward zero) |
| ReportesViews.BuildFileUrl | reportes/views.py:12-22 | no link for a missing or empty path; URLs and '/'-paths are kept; a relative path is appended to the media URL stripped of trailing '/', with exactly one '/' between them |
| ReportesViews.BuildFileUrlIdempotente | reportes/views.py:12-22 | with a media URL rooted at '/', every relative link becomes a server path, and building a link of a link changes nothing |
| ReportesViews.BuildFileUrlEjemplo | reportes/views.py:21-22 | "/media/" and "reportes/r1.pdf" give "/media/reportes/r1.pdf" |
| ReportesAdmin.Decimas | reportes/admin.py:52-54 | `:.1f` of n/d: tenths within half a tenth of the exact value, with ties to even |
| ReportesAdmin.TamanoArchivoDisplay | reportes/admin.py:47-55 | "N/A" for no or zero size; "<n> bytes" below 1024; otherwise one-decimal KB below 1 MiB, else MB |
| ReportesAdmin.KilobytesAcotados | reportes/admin.py:51-52 | the KB branch shows between 1.0 and 1024.0 |
| ReportesAdmin.TamanoArchivoEjemplos | reportes/admin.py:47-55 | 1536 shows "1.5 KB", 2304 shows "2.2 KB" (tie to even), and 1048575 shows "1024.0 KB" |
| ReportesAdmin.TamanoKilo | reportes/admin.py:50-52 | a size under a megabyte reads as its rounded tenths of a kilobyte followed by "KB" |
| ReportesAdmin.DetalleCorto | reportes/admin.py:110-113 | "-" for no detail; a detail up to 50 characters as is; a longer one as its first 50 characters plus "..." |
| ReportesAdmin.DetalleCortoColision | reportes/admin.py:112 | a 51-character detail and a different 53-character one ending in "..." display the same |
| ReportesAdmin.GuardarReporte | reportes/admin.py:58-61 | a new report takes the acting user as generado_por; an edit changes nothing; no other field changes |
| ReportesAdmin.GuardarConfiguracion | reportes/admin.py:95-98 | a new configuration takes the acting user as creado_por; an edit changes nothing |
| ReportesAdmin.AutorPermanece | reportes/admin.py:58-61 | an edit by another user keeps the original author |

## Left out

- Categories, users, suppliers and areas are only get-or-created by the routines (seed_db, migration 0005, poblar_hotel_real). The model takes them as parameters or as they stand in the tables; their creation is not modelled.
- `seed_db._create_users` and `_create_reportes` are not modelled. They only get-or-create users, profiles, report types, a report and a configuration, with no arithmetic or invariant.
- Randomness in `poblar_hotel_real.py:155-161` becomes parameters:
  - the `random.randint(1, 3)` factor is the argument of `CantidadBase`;
  - the 30 % low-quantity branch chooses the `cantidad` passed to `ColocarStock`.
- The distribution loop over categories and area names (`poblar_hotel_real.py:143-149`) is not modelled. Its `Categoria.objects.get` and `Area.objects.get` lookups are not modelled either.
- Default model orderings (`ordering` in each Meta) are not modelled. Querysets (`[:5]`, `[:4]`, `.first()`, `filter(...)`, `pedido.detalles.all()`) are taken in table order.
- InventarioViews.Ordenar: states that `sorted()` orders by the key and permutes its input, not that it is stable. The order of rows with equal keys is not promised.
- InventarioViews.ListaFiltrada: `order_by('categoria__nombre', 'nombre')` compares text code point by code point. The database collation is not modelled, nor is the order of products equal on both fields.
- Decimal rounding on save is not modelled:
  - SeedDb.Mitad: halves a quantity in whole hundredths, so an odd number of hundredths drops its half-hundredth. The Decimal value is stored rounded to two places by the database.
  - The total_compra of seed_db and migration 0005 keeps its ten-thousandths. It is not quantised to two places on save.
- The movement create at `seed_db.py:207-218` passes `entrada` and `detalle_entrada`, keywords that Movimiento (`inventario/models.py:125-183`) does not declare. As written it raises TypeError (see "## Findings"). The members on the next eight lines follow the intended behaviour and treat that create as succeeding with the movement recorded.
- SeedDb.PasoDetalle: a new detail succeeds and records its movement; the code as written raises TypeError there (`SeedDb.PasoDetalleEscrito`).
- SeedDb.PasoDetalleMovimiento: the appended movement is the intended one; as written no movement is stored and the iteration fails.
- SeedDb.PasoDetalleRompeLibro: describes the intended movement; as written the iteration fails before any movement exists.
- SeedDb.SembrarEntradasEfecto: holds for the intended entry step; as written the step fails whenever a detail is new (`SeedDb.DetallesEscritoFalla`).
- SeedDb.RegistrarDetalle: the in-place iteration follows PasoDetalle, so a new detail succeeds instead of raising TypeError.
- SeedDb.RegistrarDetalles: the in-place loop follows Detalles, so a new detail does not abort it with TypeError.
- SeedDb.CrearEntradasMovimientos: follows SembrarEntradas, so a new detail does not abort the step with TypeError.
- SeedDb.Sembrar: follows the intended entry step. As written, handle fails and rolls back whenever a detail is new (`SeedDb.SembrarEscritoFalla`).
- Floating point is not modelled: `tamano_kb` in `reportes/views.py:29`, and any view statistics using floats. The `.1f` of `tamaño_archivo_display` IS modelled exactly, because n/1024 and n/1024² are exact binary fractions, so Python's rounding of them is the round-half-to-even of `Decimas`.
- Timestamps (`auto_now_add`, `timezone.now()`, `date.today()`) are caller-supplied integers. Time zones are not modelled.
- Console output, `message_user` text other than the count, and HTML rendering are not modelled. The observation text of poblar's alerts is computed (`Observacion`) but carries no contract.
- `PoblarHotelReal.AlertaPoblar`: the stored `observaciones` field is not part of the alert record.
- Python's `int()` is modelled as an optional sign followed by ASCII digits (`Texto.ParseInt`). It does not accept surrounding whitespace, underscores or non-ASCII digits.
- Template values given to `format_currency` and `url_with_params` are modelled as decimals, integers, strings or None. Other Python types are not modelled.
- `icontains` is ASCII case-folding only.
- `guardar_perfil_usuario` (`usuarios/models.py:71-75`) only re-saves the profile, which touches timestamps; it is not modelled.
- Sub-second durations are not modelled: sessions are in whole seconds.
- `Pedido.total_pedido` and `total_items` (`pedidos/models.py:67-78`) are not modelled. `total_pedido` aggregates `F('cantidad')`, a field DetallePedido does not have.
- Order state transitions (`estado`) are not modelled. No modelled code changes them.
- `UsuariosModels.TipoDeAcceso` and `CodigoCubierto` are defined only for restricted options (`requires a != Todas`), since TODAS is decided before the comparison.
- The dashboard's other counts (products, areas, categories, latest movements, top categories) are not modelled. They are plain queryset counts and slices.
- Pagination, `login_required`, `select_related`/`distinct` and the request object are not modelled.

## Findings

| source | as written | input that shows it | evidently intended | confidence | as-written member | corrected member |
|---|---|---|---|---|---|---|
| inventario/views.py:171-172 | sorts by `(0 if critico else 1, fecha_creacion)` with `reverse=True`, so every non-critical alert is listed before every critical one | one critical and one non-critical ACTIVA alert: the non-critical one is listed first | critical alerts first, newest first within each group, as the comment on line 171 says | medium, not executed | InventarioViews.AlertasOrdenEscrito | InventarioViews.AlertasOrdenCorregido |
| inventario/migrations/0005_seed_demo_data.py:179-181 | deletes the demo detail lines first, then selects entries through `detalles__producto__in`, which no longer matches anything | any forward-migrated database: every FAC-DEMO entry survives the reverse step, stripped of its lines | select the entries before deleting their lines, so the FAC-DEMO entries go too | medium, not executed | MigracionDemo.EntradaDemoSobrevive | MigracionDemo.EliminarDemoCorregidoCompleto |
| inventario/admin.py:110-118 | the message counts the queryset again after `update()`; under the change-list filter estado=ACTIVA the updated rows no longer match | select one ACTIVA alert in the list filtered by ACTIVA and mark it resolved: the message says "0 alertas marcadas" | report the number of rows updated, counted before the update (or the value `update()` returns) | medium, not executed | InventarioAdmin.MensajeEscritoCuentaCero | InventarioAdmin.MensajeCorregidoCuenta |
| usuarios/models.py:22, 57-61 | the access option is stored as "HABITACIONES", but room areas have tipo "HABITACION" (inventario/models.py:28), and the comparison is exact | a HOUSEKEEPING profile with area_acceso HABITACIONES asking for a HABITACION area is refused | "Solo Habitaciones" grants the room areas | medium, not executed | UsuariosModels.HabitacionesSinAcceso | UsuariosModels.AccesoCorregido |
| reportes/management/commands/seed_db.py:207-218 | `Movimiento.objects.create(..., entrada=entrada, detalle_entrada=detalle)`, but Movimiento (inventario/models.py:125-183) declares neither field, so Django raises TypeError; `transaction.atomic()` (line 23) then rolls back the whole command | any database with an admin user, a supplier and a BODEGA area but no FAC-0001 detail: the first new detail raises TypeError and nothing is seeded | record the purchase movement of each new detail, with the links declared on Movimiento or left out of the call | medium, not executed | SeedDb.SembrarEscritoFalla | SeedDb.PasoDetalleMovimiento |
