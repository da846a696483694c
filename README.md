# Inventory management core in Dafny

This project models the business core of a small inventory web application
and proves properties of that model. The core has four parts:

- **Records** (`models.dfy`, module `Models`). It models the supplier, product and stock-transaction rows, the unique SKU and default quantity of a product, and the derived properties of a transaction: `is_increase`, `is_decrease` and `transaction_display`. It also models a product's transaction history, which is listed newest first.
- **Reorder-point seeding** (`reorder_seeding.dfy`, module `ReorderSeeding`). This is the set-up script that gives every product without a reorder point a default one. It covers the two default formulas, the loop that adds one row per product, and the single commit after the loop. The database session is a class whose `committed` and `pending` row lists the loop updates.
- **PDF reports** (`reports.dfy`, module `Reports`). This covers:
  - the low-stock alert filter and its three buckets (critical, urgent, warning);
  - the key figures each report shows;
  - the KPI grid, with two metrics per row;
  - the products, alerts, suppliers and inactive-suppliers tables;
  - the sequence of paragraphs, tables, spacers and page breaks ("the story") that each of the three reports is built from.

  The story is a class whose block list the section builders append to. Every table is built by one row-appending loop, proved equal to a specification function.
- **Access control** (`auth.dfy`, module `Auth`). Each decorator is a decision: allow, redirect to login (with or without `next=`), redirect to the dashboard, or abort with 400. Also modelled are the conversion of `role_required`'s arguments to roles (a loop), `get_user_permissions` and `check_feature_access`.

`pybuiltins.dfy` (module `PyBuiltins`) holds the Python behaviour the code relies on:

- None, and exceptions as results;
- `str()` of an integer;
- `int()` truncation toward zero;
- `str.join` and `str.upper`;
- truthiness of optional strings and `x or y`;
- list comprehensions with a condition.

It also holds inverses that the code itself never calls: `Split` (`str.split`), `ParseDigits` and `ParseInt` (reading a `str()` back). They exist so that the model can state round trips: the contact cell splits back into its details, and a printed number reads back as that number.

## Where the code and a five-level alert rule differ

`Reports.IntendedLevelOf` is the model's own reference rule for stock levels. It has five levels: disabled for an inactive point, critical at zero whatever the minimum, urgent below half the minimum, warning below the minimum, and otherwise ok. The report code does not follow that rule:

- It has no ok or disabled level. Rows outside the alert filter are simply absent.
- Every bucket query starts from `quantity < minimum`. A quantity of 0 against a minimum of 0 or less is therefore in no bucket.
- A negative quantity passes the alert filter but falls in no bucket. The critical bucket needs `== 0`, the urgent bucket needs `> 0`, and the warning bucket needs `>= minimum * 0.5`, which a negative quantity below the minimum never reaches when the minimum is positive. So the "Active Alerts" count leaves such a row out.

The model follows the code. `Reports.BucketsFollowIntendedRule` proves that the two agree on every other input, and `Reports.BucketsDepartFromIntendedRule` shows both departures on concrete inputs.

The products table labels a negative quantity "Low Stock", while the summary's "Low Stock Items" counts only quantities in 1..9. `Reports.StockFiguresMatchStatus` proves that the labels and the counts agree once no quantity is negative.

The stock-transaction record does not tie `quantity_after` to `quantity_before + quantity_change`. No code shown enforces that, so the model does not assume it.

## Model

| member | source | states |
|---|---|---|
| PyBuiltins.TruncDiv | add_reorder_points.py:48 | `int(a / b)` for a positive divisor truncates toward zero: it is the floor quotient for a >= 0 and the negated quotient of -a otherwise |
| PyBuiltins.OrElse | pdf_reports.py:569-571 | `s or fallback` gives s exactly when s is neither None nor empty, and the fallback otherwise |
| PyBuiltins.IntToString | pdf_reports.py:190 | `str(i)` starts with '-' exactly for negative i; the rest is decimal digits |
| PyBuiltins.IntToStringRoundTrip | pdf_reports.py:190 | reading back what `str(i)` wrote gives i back, for every integer |
| PyBuiltins.ParseNatToString | pdf_reports.py:190 | the digits `str(n)` writes for n >= 0 parse back to n |
| PyBuiltins.NatToStringInjective | models.py:75-77 | two naturals print alike exactly when they are equal |
| PyBuiltins.Upper | pdf_reports.py:268 | `str.upper` keeps the length and maps each character through the ASCII upper-casing |
| PyBuiltins.Join | pdf_reports.py:320 | `sep.join(parts)` is empty for no parts, the part itself for one, and otherwise starts with the first part followed by the separator |
| PyBuiltins.SplitJoin | pdf_reports.py:320 | splitting `"\n".join(parts)` at the separator gives the parts back when no part holds the separator |
| PyBuiltins.Filter | pdf_reports.py:541 | a comprehension with a condition keeps at most its input, and an element is kept exactly when it is in the input and satisfies the condition |
| PyBuiltins.FilterSplitsInTwo | pdf_reports.py:554-559 | two exclusive conditions that make up a third split that third filter's result between them, as multisets and in length |
| PyBuiltins.FilterSplitsInThree | pdf_reports.py:423-430 | the same with three exclusive conditions |
| Models.InsertProduct | models.py:26-29 | inserting a product fails with a duplicate-SKU error exactly when the SKU is taken; otherwise the table grows by one row at the end with the given SKU and id and a quantity that defaults to 0, and unique SKUs stay unique |
| Models.IsIncrease | models.py:79-82 | `is_increase` holds exactly for a positive change |
| Models.IsDecrease | models.py:84-87 | `is_decrease` holds exactly for a negative change |
| Models.DirectionExclusive | models.py:79-87 | a transaction is never both an increase and a decrease, and is one of them exactly when its change is non-zero |
| Models.TransactionDisplay | models.py:71-77 | the text is "Added n units" for a positive change and "Removed \|change\| units" otherwise, so zero reads "Removed 0 units" |
| Models.DisplayRecoversChange | models.py:71-77 | reading the display text back recovers the exact `quantity_change` |
| Models.DisplayDeterminesChange | models.py:71-77 | two transactions display alike exactly when their changes are equal, and the text starts with 'A' exactly for an increase |
| Models.InsertByDate | models.py:36 | placing a transaction in a newest-first log keeps it newest first and adds exactly that transaction |
| Models.SortNewestFirst | models.py:36 | the result is ordered newest first by `created_at` and is a permutation of the input |
| Models.History | models.py:36 | a product's `transactions` are newest first and are exactly its own rows of the log, each as often as it occurs there |
| ReorderSeeding.DefaultMinimum | add_reorder_points.py:47-48 | the default minimum lies in 5..20; for non-negative stock it is the truncated quarter clamped to 5..20; it is 5 below 20 units and 20 from 80 units |
| ReorderSeeding.DefaultReorder | add_reorder_points.py:50-51 | the default reorder quantity is at least 25; it is 25 below 17 units and the truncated 1.5 times the stock from 17 units |
| ReorderSeeding.ReorderAboveMinimum | add_reorder_points.py:48-51 | for every stock level the reorder quantity exceeds the minimum by at least 5 |
| ReorderSeeding.DefaultReorderPoint | add_reorder_points.py:53-58 | the new row belongs to the product, is active, and has minimum 5..20 below reorder quantity >= 25 |
| ReorderSeeding.ProductsWithoutReorder | add_reorder_points.py:40 | a product is selected exactly when no reorder point refers to its id |
| ReorderSeeding.Seeds | add_reorder_points.py:42-61 | one default configuration per selected product, in order |
| ReorderSeeding.Session.Add | add_reorder_points.py:60 | `db.session.add` appends to the pending rows and leaves the committed rows alone |
| ReorderSeeding.Session.Commit | add_reorder_points.py:63 | `db.session.commit` appends the pending rows to the committed ones and empties the pending list |
| ReorderSeeding.SeedReorderPoints | add_reorder_points.py:40-63 | after the loop and its single commit the table is the old rows followed by one default row per product that had none, and `created_count` is the number of such products |
| ReorderSeeding.SeedingCoversEveryProduct | add_reorder_points.py:40-63 | after seeding, every product has a reorder point, the old rows are kept in place, and every new row is active and belongs to a product that had none |
| ReorderSeeding.SeedsAreOnePerProduct | add_reorder_points.py:40-61 | for products with distinct ids, no two new rows belong to the same product |
| ReorderSeeding.MissingIdsDistinct | add_reorder_points.py:40 | selecting products without a configuration keeps their ids distinct |
| Reports.InAlertQuery | pdf_reports.py:381-384 | the base alert query: an active reorder point whose product holds less than its minimum |
| Reports.IsCritical | pdf_reports.py:386 | the critical bucket: the base query and a quantity of exactly 0 |
| Reports.IsUrgent | pdf_reports.py:387-390 | the urgent bucket is the base query with `quantity > 0` and `quantity < minimum * 0.5`, and the integer test `2 * quantity < minimum` equals that comparison |
| Reports.IsWarning | pdf_reports.py:391-394 | the warning bucket is the base query with `quantity >= minimum * 0.5`, and the integer test equals that comparison |
| Reports.BucketsAreExclusive | pdf_reports.py:381-394 | the three buckets are exclusive and lie inside the alert filter; an alert row is in exactly one bucket unless its quantity is negative; a negative quantity, or a non-negative one against a minimum of 0 or less, is in none |
| Reports.BucketsFollowIntendedRule | pdf_reports.py:381-394 | for a positive quantity, or zero against a positive minimum, a row is in a bucket exactly when the reference rule gives that level, and in none exactly when the rule says ok or disabled |
| Reports.BucketsDepartFromIntendedRule | pdf_reports.py:381-394 | quantity -1 against minimum 5, and quantity 0 against minimum 0, alert under the reference rule but fall in no bucket |
| Reports.SeededPointAlertsBelowFive | add_reorder_points.py:70-73 | a freshly seeded configuration puts its product in the alert filter exactly when the product holds fewer than 5 units |
| Reports.BucketsPartitionAlerts | pdf_reports.py:386-396 | the three buckets split the non-negative alert rows between them, as a multiset and in their counts, and those are all the alert rows when no quantity is negative |
| Reports.AlertsAt | pdf_reports.py:423-430 | each bucket's alert list has one entry per row, carrying the row's product, reorder point and suggested order and the bucket's level |
| Reports.CollectAlerts | pdf_reports.py:423-430 | each list of `alerts_data` holds exactly its bucket's rows, in query order, each tagged with the bucket's level |
| Reports.AllAlertsBySeverity | pdf_reports.py:247 | the rows of the combined alert list are a permutation of the non-negative alert rows, so each appears once; critical first, then urgent, then warning, and each entry's row satisfies its level's bucket |
| Reports.ReportsAgreeOnAlerts | pdf_reports.py:474-491 | the low-stock report's bucket lengths and total equal the summary report's counts, and both totals are the number of non-negative alert rows |
| Reports.StockStatus | pdf_reports.py:170-178 | "Out of Stock" exactly at 0, "Low Stock" exactly for a non-zero quantity below 10, "In Stock" exactly from 10 |
| Reports.StockFiguresMatchStatus | pdf_reports.py:372-374 | the out-of-stock count counts the products labelled so; the low-stock count never exceeds the in-stock count; with no negative quantity, the low-stock count counts the "Low Stock" labels, and the in-stock and out-of-stock counts add up to all products |
| Reports.SummaryMetrics | pdf_reports.py:399-408 | the summary has eight figures, and "Active Alerts" is the number of non-negative alert rows |
| Reports.LowStockMetrics | pdf_reports.py:485-491 | the low-stock report has four figures, the first being the length of the combined alert list |
| Reports.SuppliersSplit | pdf_reports.py:554-559 | every supplier is listed exactly once, as active (with products) or inactive (without) |
| Reports.SupplierMetrics | pdf_reports.py:539-549 | the supplier report has four figures: all suppliers, then the number of suppliers listed as active |
| Reports.ContactText | pdf_reports.py:311-320 | with no truthy contact field the cell reads "No contact info"; with one it is that field |
| Reports.ContactTextLines | pdf_reports.py:311-320 | when none of the details holds a line break, the contact cell's lines are the supplier's truthy contact details in order |
| Reports.SupplierCells | pdf_reports.py:322-328 | a supplier row has one cell per column: the name, the product count and the stock total (0 when NULL) reading back as those numbers, and the contact cell |
| Reports.Story.Append | pdf_reports.py:97 | `story.append` adds one block at the end |
| Reports.CreateHeader | pdf_reports.py:93-105 | the header adds the company name, the title, the "Generated on" line and a spacer |
| Reports.CreateFooter | pdf_reports.py:446-449 | the footer adds a spacer and the "Report generated by" line |
| Reports.MetricsGrid | pdf_reports.py:116-138 | the grid has one row per two metrics, rounded up |
| Reports.MetricsGridAt | pdf_reports.py:116-138 | row k holds metrics 2k and 2k+1, or metric 2k and the empty cell when there is no metric 2k+1 |
| Reports.GridReadsRowMajor | pdf_reports.py:116-138 | read row by row, the grid is the metrics in insertion order, followed by one empty cell exactly when their number is odd |
| Reports.LastRowPadding | pdf_reports.py:128-136 | the right cell of the last row is empty exactly when the number of metrics is odd |
| Reports.BuildMetricsGrid | pdf_reports.py:113-138 | the stepping loop builds exactly the grid above |
| Reports.CreateMetricsSection | pdf_reports.py:107-149 | the section adds its heading, the grid of the given metrics and a spacer |
| Reports.BuildTable | pdf_reports.py:164-196 | the row-appending loop of every table builds exactly the header row followed by one row of cells per item, in order |
| Reports.ProductCells | pdf_reports.py:187-195 | a product row has one cell per column; the quantity cell reads back as the quantity, the status cell is the product's status label, and the supplier cell is the supplier's name or "No Supplier" |
| Reports.ProductRowsShowStock | pdf_reports.py:187-196 | each product row's quantity cell reads back as the product's quantity, and its status cell is the one status label for it |
| Reports.CreateProductsTable | pdf_reports.py:151-234 | with no products the section is its heading and "No products found."; otherwise it is its heading, the table and a spacer |
| Reports.LevelLabels | pdf_reports.py:268 | the level column reads CRITICAL, URGENT or WARNING |
| Reports.AlertCells | pdf_reports.py:264-271 | an alert row has six cells, the fourth being the upper-cased level |
| Reports.AlertTableShowsLevels | pdf_reports.py:253-272 | row k + 1 of the alerts table shows the level of alert k |
| Reports.CreateAlertsTable | pdf_reports.py:236-296 | with all three lists empty the section is its heading and the no-alerts paragraph; otherwise it is its heading, the table of the combined list and a spacer |
| Reports.AlertsSectionShape | pdf_reports.py:241-272 | for the alert rows of a join: no non-negative alert gives only the no-alerts paragraph; otherwise the table has one header row and one row per such alert, each alert once (as a permutation), in severity order, each row's level naming a bucket its row satisfies |
| Reports.CreateSuppliersSection | pdf_reports.py:298-351 | with no rows the section is its heading and "No supplier data available."; otherwise it is its heading, the table and a spacer |
| Reports.InactiveCells | pdf_reports.py:567-572 | an inactive supplier row is the name and then each contact field, or "Not provided" when the field is None or empty |
| Reports.CreateInactiveSuppliersSection | pdf_reports.py:560-588 | the inactive section adds its heading, a table of names and contact fields with "Not provided" for each missing one, and a spacer |
| Reports.GenerateInventorySummaryReport | pdf_reports.py:353-456 | the summary report is the header, the eight figures, the top-products table, a page break, the alerts section for the joined rows, the suppliers section and the footer |
| Reports.CreateReorderSummary | pdf_reports.py:504-508 | the reorder summary adds its heading, the total line and a spacer when the amount is positive, and nothing otherwise |
| Reports.GenerateLowStockReport | pdf_reports.py:458-517 | the low-stock report is the header, the four alert figures, the alerts section, the reorder summary when its amount is positive, and the footer |
| Reports.GenerateSupplierReport | pdf_reports.py:519-597 | the supplier report is the header, the four figures, the active suppliers' table when there are any, the inactive suppliers' table when there are any, and the footer |
| Auth.LoginRequiredWithMessage | auth_utils.py:6-16 | the view runs exactly for an authenticated user; anyone else goes to login with `next=` |
| Auth.ParseRole | auth_utils.py:37-42 | `UserRole(s)` is the first member whose value is s, and fails exactly when no member has value s |
| Auth.Converted | auth_utils.py:36-44 | one argument contributes at most one role, exactly the role it names |
| Auth.RolesToCheck | auth_utils.py:35-44 | the converted roles are at most as many as the arguments, and a role is among them exactly when some argument names it |
| Auth.CollectRoles | auth_utils.py:35-44 | the conversion loop, which skips invalid strings, builds exactly that list |
| Auth.AnyRole | auth_utils.py:47 | `any(has_role(...))` holds exactly when the user has one of the roles |
| Auth.RoleDecision | auth_utils.py:29-52 | an anonymous user goes to login; an authenticated user passes exactly when they hold a role one of the arguments names, and otherwise goes to the dashboard |
| Auth.RoleRequired | auth_utils.py:29-52 | the decorator's code decides as above |
| Auth.InvalidRolesDeny | auth_utils.py:35-50 | arguments naming no role, including none at all, send every authenticated user to the dashboard |
| Auth.NameAndMemberAgree | auth_utils.py:22-25 | with distinct member values, `role_required('x')` and `role_required(UserRole.X)` decide alike |
| Auth.AnyPermission | auth_utils.py:72 | `any(has_permission(...))` holds exactly when the user holds one of the permissions |
| Auth.PermissionRequired | auth_utils.py:56-78 | an anonymous user goes to login; an authenticated user passes exactly when they hold one of the permissions, and otherwise goes to the dashboard |
| Auth.AdminRequired | auth_utils.py:80-95 | the view runs exactly for an authenticated administrator; anonymous users go to login and others to the dashboard |
| Auth.ManagerOrAdminRequired | auth_utils.py:97-112 | the view runs exactly for an authenticated manager or administrator; anonymous users go to login and others to the dashboard |
| Auth.ActiveUserRequired | auth_utils.py:114-129 | the view runs exactly for an authenticated active user; a deactivated account goes to login without `next=`, never to the dashboard |
| Auth.RequestedUserId | auth_utils.py:143 | `user_id or id`: a present non-zero `user_id` wins; a missing or zero `user_id` gives `id`, so the result is missing exactly when neither gives one |
| Auth.SelfOrAdminRequired | auth_utils.py:131-155 | anonymous users go to login; a missing id aborts with 400; otherwise the view runs exactly for the user with that id or an administrator, and others go to the dashboard |
| Auth.ZeroUserIdIsMissing | auth_utils.py:143-146 | a `user_id` of 0 counts as missing, so with no `id` the request aborts even for an administrator |
| Auth.AuthenticationComesFirst | auth_utils.py:6-155 | every decorator sends an anonymous user to login with `next=`, before any role, permission, activity or id check |
| Auth.AdminPassesEverywhere | auth_utils.py:80-155 | whoever passes `admin_required` passes `manager_or_admin_required`, `login_required_with_message`, and `self_or_admin_required` for any given id |
| Auth.GetUserPermissions | auth_utils.py:158-170 | the empty set for no user or an anonymous one; otherwise exactly the listed permissions the user holds, always a subset of the thirteen |
| Auth.RequiredPermissions | auth_utils.py:177-189 | a known feature maps to its entry, an unknown one to no permissions |
| Auth.CheckFeatureAccess | auth_utils.py:172-190 | false for an anonymous user and for an unknown feature; otherwise true exactly when the user holds one of the feature's permissions |
| Auth.FeatureAlternatives | auth_utils.py:177-190 | "analytics" and "reports" each accept either of two permissions, and every other feature needs the permission of its own name |
| Auth.FeaturePermissionsAreListed | auth_utils.py:163-187 | every permission a feature maps to is one of the thirteen `get_user_permissions` asks about |
| Auth.FeatureAccessAgrees | auth_utils.py:172-190 | feature access holds exactly when `permission_required` with the feature's permissions lets the user through, and exactly when the user's listed permissions meet the feature's |

## Left out

- Floating point. Prices, product values, the TOTAL row of the products table, the Price / Total Value / Inventory Value columns, and the inventory, supplier and reorder-order value sums are left out. The figures built from them are given as already formatted text. The Reorder Summary is given as an optional formatted amount, present when the sum is positive.
- Rendering. ReportLab styles, colours, column widths, table styling, `doc.build` and the returned buffer are left out. Each report is modelled as the sequence of blocks it builds.
- Dates. `datetime.now()` and its formatting are given as text.
- Database queries. Their results are inputs in query order. `order_by` and `limit` are not modelled, and neither are the SQL `COUNT`/`SUM` aggregates of the supplier query. A NULL product quantity is not modelled either: quantity is an integer with a default of 0 on insert.
- `ReorderPoint.suggested_order_amount` is defined outside the shown code. It is an input on each joined row.
- The `ReorderPoint` and `User` models and `UserRole` are outside the shown code. Their fields are modelled as the code uses them. `has_role` and `has_permission` are oracles on the user, and each `UserRole` member's `.value` is a parameter.
- Flask effects. `flash` messages (including the role names in `role_required`'s message), `url_for`, and the logger warning for an invalid role string are left out. Only the decision is modelled.
- Auth.SelfOrAdminRequired: route ids are integers. `int(user_id)` on a non-numeric string, which raises, is not modelled.
- ReorderSeeding.DefaultReorder: `int(stock * 1.5)` is modelled exactly. Float rounding for stocks beyond 2^52 is not.
- ReorderSeeding.SeedReorderPoints: the script's prints, its exception handling and rollback, and the Step 4 and Step 5 report are left out. `Reports.SeededPointAlertsBelowFive` states which seeded products Step 4 counts as alerts.
- `auth_template_context` only exposes names to templates, so it has no model.
