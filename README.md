# Snow & Mow job workflow — a Dafny model

Snow & Mow is a booking web app: homeowners ("clients") book snow removal or
lawn care, providers accept and carry out the jobs, and a serverless function
opens a card checkout. The screens talk to a hosted database. This project
models the decision rules and the row building buried in those screens, not
their rendering:

- the vocabulary of roles, categories, statuses, addresses and jobs, and the
  fixed service catalogue (`Domain`, `Catalogue`);
- the job card's colour, badge, label and the single action it offers, and
  the provider dashboard's handler that turns an action into a status
  request, forming the workflow PENDING → ACCEPTED → IN_PROGRESS → COMPLETED
  (`JobCard`, `ProviderDashboard`);
- the client's three-step booking wizard, the row it inserts, the client's
  job list and the payment-return handler (`ClientDashboard`, a class);
- the jobs table and the jobs service's create / list-pending / accept
  (`JobsTable`, a class over a map from id to row; `JobsService`);
- the session store: the user mapping with its fallbacks, sign-in and
  sign-up results, logout, the job row it inserts and its empty status
  update (`Store`);
- the route guard and route table (`Routes`), the sign-in page's submit
  handler, demo fill and back button (`AuthPage`, a class);
- the checkout function's request-to-response mapping (`Checkout`);
- lemmas on how these fit together, and where they do not (`Workflow`).

The database is a model assumption, not something proved: insert adds a row
under a fresh id and stamps it later than every earlier row, `eq` is an
exact-match filter (a null value matches nothing), `update(...).eq(...)`
patches every matching row, and `order('created_at', desc)` lists the newest
row first. A row is a map from column to value, so the store's
`{ client_id, ...jobData, status }` spread is modelled as written. A typed
`Job` always has a client id; its provider id is optional; its address is
structured with a HOME/OFFICE/OTHER type.

The source has three status spellings, and the model keeps all three: the
typed vocabulary (`'PENDING'`, `'ACCEPTED'`, ...), `'OPEN'` written by the
booking wizard and the store, and lower-case `'pending'`/`'accepted'` used by
the jobs service. Stored statuses are plain text; `Domain.ParseStatus`
recognises only the typed five. The lemmas in `Workflow` show what follows:
booked jobs get no card action, accepted jobs cannot be started, the payment
return is never recognised, and provider actions change nothing.

The model follows the code as written: a job is created as `'OPEN'` while
the cards know PENDING/ACCEPTED; accept is an unconditional update keyed by
id, so a second accept overwrites the first provider; the checkout's success
address carries `payment_success=true` while the client page looks for
`payment_status=success`; the pending-jobs query is an exact match on
`'pending'`.

The option field `label` is called `caption` in the model because `label`
is a reserved word in Dafny.

## Model

| member | source | states |
|---|---|---|
| Domain.StatusRoundTrip | types.ts:5 | every status name reads back as the same status |
| Domain.ParseStatusExact | types.ts:5 | a text is a status exactly when it is one of the five names, and it reads back to that name |
| Domain.OtherSpellingsAreNotStatuses | types.ts:5 | 'OPEN', 'pending' and 'accepted' are not statuses, and no status is named 'OPEN' |
| Domain.RoleRoundTrip | types.ts:1 | every role name reads back as the same role |
| Catalogue.SnowOptions | constants.ts:3-7 | the snow packages cost 40, 60 and 15 in order; prices positive, ids and labels distinct |
| Catalogue.LawnOptions | constants.ts:9-13 | the lawn packages cost 50, 70 and 100 in order; prices positive, ids and labels distinct |
| Catalogue.OptionsFor | constants.ts:3-13 | the wizard shows three positively priced packages with distinct labels, snow or lawn by category |
| Catalogue.IdsDistinctAcrossCatalogues | constants.ts:4-12 | option ids are pairwise distinct across both catalogues |
| Catalogue.CaptionIdentifiesOption | constants.ts:4-12 | within one catalogue a label names one option |
| Catalogue.MockUsers | constants.ts:15-40 | the sample users are a client, a provider and an admin |
| Catalogue.MockJobs | constants.ts:42-65 | both sample jobs belong to client 'c1' with no provider; one COMPLETED, one PENDING |
| JobCard.Stripe | components/JobCard.tsx:12-23 | the stripe is the snow colour exactly when the category is 'SNOW' |
| JobCard.StatusColor | components/JobCard.tsx:13-19 | among the texts the app writes, a status has a badge class exactly when it is one of the five statuses |
| JobCard.StatusColorExact | components/JobCard.tsx:13-19 | each status has its own badge class; 'OPEN' and 'accepted' get none |
| JobCard.FirstUnderscore | components/JobCard.tsx:28 | the position of the first '_', or the length when there is none: no '_' before it |
| JobCard.ReplaceFirstUnderscore | components/JobCard.tsx:28 | the label has the status's length and differs from it only at the first '_', which becomes a space |
| JobCard.StatusLabel | components/JobCard.tsx:28 | the badge label keeps the status's length, and a status without '_' shows unchanged |
| JobCard.InProgressLabel | components/JobCard.tsx:28 | IN_PROGRESS shows as "IN PROGRESS" |
| JobCard.OtherLabels | components/JobCard.tsx:28 | every other status shows as its name |
| JobCard.Buttons | components/JobCard.tsx:53-78 | the card renders at most one button, and only to a provider |
| JobCard.AtMostOneButton | components/JobCard.tsx:53-78 | a card offers an action exactly when a provider sees a PENDING, ACCEPTED or IN_PROGRESS job |
| JobCard.ProviderButtons | components/JobCard.tsx:53-78 | PENDING offers accept, ACCEPTED start, IN_PROGRESS complete; any other status, 'OPEN' included, none |
| JobCard.Press | components/JobCard.tsx:55-73 | a pressed button reaches the dashboard exactly when a callback was supplied |
| ProviderDashboard.HandleJobAction | pages/ProviderDashboard.tsx:33-38 | without a user no request; at most one request, always for the pressed job |
| ProviderDashboard.Successor | pages/ProviderDashboard.tsx:35-37 | each workflow step moves one rank forward and never to CANCELLED |
| ProviderDashboard.HandlerShape | pages/ProviderDashboard.tsx:33-38 | no user or an unknown action requests nothing; otherwise one request, with a provider id only on 'accept' (the user's) |
| ProviderDashboard.CardThenHandlerAdvances | pages/ProviderDashboard.tsx:33-38 | the action a card offers requests exactly the successor status, and every status with a successor offers that action |
| ProviderDashboard.NeverBackwards | pages/ProviderDashboard.tsx:35-37 | a provider's action requests a status ranked exactly one above the current one |
| ProviderDashboard.Unfinished | pages/ProviderDashboard.tsx:85 | the filter keeps exactly the jobs that are not COMPLETED, never more than the list holds |
| ProviderDashboard.UnfinishedCounts | pages/ProviderDashboard.tsx:85 | the filter keeps every copy of an unfinished job and no copy of a completed one |
| ProviderDashboard.UnfinishedAll | pages/ProviderDashboard.tsx:85 | the filter keeps the whole list exactly when no job in it is completed |
| ProviderDashboard.ScheduleBadge | pages/ProviderDashboard.tsx:85 | the badge is at most the number of my jobs, below it exactly when one is completed, and 0 exactly when all are |
| ProviderDashboard.ProviderView.constructor | pages/ProviderDashboard.tsx:10-11 | the screen opens on the market tab, online |
| ProviderDashboard.ProviderView.ToggleOnline | pages/ProviderDashboard.tsx:59 | the online flag flips and the tab is kept |
| ProviderDashboard.ProviderView.SelectTab | pages/ProviderDashboard.tsx:72-80 | the tab becomes the chosen one and the flag is kept |
| ProviderDashboard.ProviderView.Shown | pages/ProviderDashboard.tsx:93-123 | the market tab shows the available jobs, the other tab my jobs |
| JobsTable.WhereMembers | services/jobs.ts:18-23 | a row is selected exactly when it is in the table and its column equals the value |
| JobsTable.WhereKeepsOrder | pages/ClientDashboard.tsx:35-39 | filtering keeps the rows in creation order |
| JobsTable.Reverse | pages/ClientDashboard.tsx:39 | newest-first order lists the same rows back to front |
| JobsTable.SnapshotIncreasing | services/jobs.ts:11-13 | creation stamps increase in insertion order, and distinct ids give distinct records |
| JobsTable.Patched | services/jobs.ts:29-31 | an update gives every matching row the patch's columns and leaves all else as it was |
| JobsTable.Table.constructor | services/jobs.ts:11-13 | the table starts empty |
| JobsTable.Table.Insert | services/jobs.ts:11-13 | insert appends one row under a fresh id, stamped after all others |
| JobsTable.Table.Select | services/jobs.ts:19-22 | the selection is the matching rows in table order |
| JobsTable.Table.SelectNewestFirst | pages/ClientDashboard.tsx:35-39 | the matching rows, newest first, strictly decreasing in creation stamp |
| JobsTable.Table.Update | services/jobs.ts:28-31 | update patches every matching row and adds or removes none |
| JobsService.CreateJobRow | services/jobs.ts:4-13 | the service row holds the client, the given service type's name, address, price and the description exactly when given, and no status or provider |
| JobsService.AcceptPatch | services/jobs.ts:30 | accepting writes lower-case 'accepted' and the provider id, nothing else |
| JobsService.CreateJob | services/jobs.ts:4-16 | createJob appends exactly that row |
| JobsService.GetPendingJobs | services/jobs.ts:18-24 | the pending list is the table filtered to lower-case status 'pending': each such row once, in table order, and no other row |
| JobsService.AcceptJob | services/jobs.ts:27-33 | acceptJob patches the row with that id, whatever its status or provider |
| JobsService.AcceptTouchesOneRow | services/jobs.ts:27-32 | accept changes only that row, and in it only status and provider |
| JobsService.SecondAcceptWins | services/jobs.ts:27-32 | a second accept overwrites the first provider |
| JobsService.PendingIsLowerCaseOnly | services/jobs.ts:22 | jobs stored as 'OPEN' or 'PENDING' never count as pending |
| Store.OrElse | context/StoreContext.tsx:55-56 | `a || b` on text: a when present and non-empty, else b |
| Store.MapUser | context/StoreContext.tsx:96-101 | name is profile name, else metadata name, else 'User'; role likewise with 'CLIENT'; email is the account's when non-empty, else ''; name and role never empty |
| Store.AuthenticateResult | context/StoreContext.tsx:83-108 | sign-in succeeds exactly with an account; failures carry the provider's message, the thrown error's message, or "No user data returned" |
| Store.RegisterResult | context/StoreContext.tsx:111-151 | sign-up reports success exactly when an account comes back, even if the profile save failed |
| Store.StoreJobRow | context/StoreContext.tsx:167-173 | the store's row is 'OPEN', takes every jobData column, and its client id is jobData's when given, else the user's |
| Store.SpreadOverridesClient | context/StoreContext.tsx:169-170 | whenever jobData has a client id, it replaces the signed-in user's |
| Store.Store.constructor | context/StoreContext.tsx:21-22 | no user, loading |
| Store.Store.Authenticate | context/StoreContext.tsx:83-108 | sign-in returns the result above and makes the mapped account the user only on success |
| Store.Store.Register | context/StoreContext.tsx:111-151 | sign-up returns the result above and does not touch the user |
| Store.Store.Logout | context/StoreContext.tsx:153-156 | logout leaves no user |
| Store.Store.AuthStateChanged | context/StoreContext.tsx:71-73 | an auth change without a session clears the user, otherwise it is kept |
| Store.Store.CreateJob | context/StoreContext.tsx:164-176 | without a user nothing is inserted; otherwise the store row is appended when the store accepts it |
| Store.Store.UpdateJobStatus | context/StoreContext.tsx:177 | the status update leaves the jobs table as it was |
| Store.Store.AvailableJobs | context/StoreContext.tsx:160 | the market list handed to dashboards is always empty |
| Store.Store.MyJobs | context/StoreContext.tsx:161 | the provider's job list is always empty |
| Routes.Guard | App.tsx:11-34 | spinner while loading; no user or a wrong role redirects to "/"; the page shows exactly for a loaded user of the required role |
| Routes.Route | App.tsx:37-71 | the sign-in page shows exactly at "/", and a spinner only while loading |
| Routes.RouteTableAccess | App.tsx:37-71 | each dashboard shows only to a loaded user of its role; every other path, /admin-dashboard included, redirects to "/" |
| AuthPage.LoginTarget | pages/AuthPage.tsx:40-44 | sign-in goes to the dashboard of the role picked on the page, one per role |
| AuthPage.SignupTarget | pages/AuthPage.tsx:53-56 | sign-up sends providers to their dashboard and every other role to the client dashboard |
| AuthPage.LoginError | pages/AuthPage.tsx:46 | a failed sign-in shows the returned message, or "Login failed" when there is none |
| AuthPage.LoginOutcome | pages/AuthPage.tsx:40-47 | navigation happens exactly on success, with no error; otherwise the error above |
| AuthPage.SignupOutcome | pages/AuthPage.tsx:53-58 | navigation happens exactly on success; otherwise "Registration failed. Email might be taken." |
| AuthPage.DemoEmail | pages/AuthPage.tsx:70-78 | each demo e-mail is an address at example.com |
| AuthPage.DemoEmailsDistinct | pages/AuthPage.tsx:70-78 | each role has its own demo account |
| AuthPage.AuthForm.constructor | pages/AuthPage.tsx:12-22 | no role, login mode, empty fields, no error, not loading |
| AuthPage.AuthForm.SelectRole | pages/AuthPage.tsx:95-113 | choosing a card selects its role |
| AuthPage.AuthForm.SetMode | pages/AuthPage.tsx:167-174 | the tabs set the mode and clear the error |
| AuthPage.AuthForm.SetFields | pages/AuthPage.tsx:198-232 | the inputs set name, e-mail and password |
| AuthPage.AuthForm.FillDemoCredsAs | pages/AuthPage.tsx:70-78 | the role's demo e-mail and 'password' are filled, the name kept; with no role nothing changes |
| AuthPage.AuthForm.FillDemoCreds | pages/AuthPage.tsx:262 | the demo link fills the credentials of the selected role |
| AuthPage.AuthForm.AdminPortal | pages/AuthPage.tsx:131 | the admin link selects ADMIN but fills no credentials |
| AuthPage.AuthForm.Back | pages/AuthPage.tsx:145 | back clears the role, the error and all three fields |
| AuthPage.AuthForm.HandleSubmit | pages/AuthPage.tsx:24-67 | no role: the error and no call; login and sign-up call the store and navigate or show the error above; loading ends on every path |
| Checkout.JsonHeaders | supabase/functions/create-checkout/index.ts:47 | JSON replies carry the CORS headers plus a JSON content type |
| Checkout.UnitAmount | supabase/functions/create-checkout/index.ts:33 | the amount in cents is within half a cent of price × 100 |
| Checkout.WholeCentsExact | supabase/functions/create-checkout/index.ts:33 | a price in whole cents is charged exactly |
| Checkout.SuccessUrl | supabase/functions/create-checkout/index.ts:40 | the success address starts with the base followed by one appended '?' |
| Checkout.SuccessUrlShape | supabase/functions/create-checkout/index.ts:40 | what follows the '?' is exactly the query job_id, then payment_success=true |
| Checkout.SessionFor | supabase/functions/create-checkout/index.ts:24-42 | one card-payment line item: quantity 1, usd, named by the service, priced in rounded cents; cancel address unchanged |
| Checkout.Handle | supabase/functions/create-checkout/index.ts:13-58 | OPTIONS answers 'ok' with CORS headers and opens no session; otherwise 200 with the session URL, or 400 carrying the unreadable body's or the processor's error message |
| ClientDashboard.FullAddress | pages/ClientDashboard.tsx:77 | the address column is as long as street and city plus two, with a comma right after the street |
| ClientDashboard.FullAddressParts | pages/ClientDashboard.tsx:77 | the address column reads as the street, then ", ", then the city |
| ClientDashboard.Description | pages/ClientDashboard.tsx:78 | the description column is 28 fixed characters plus the category name and the date |
| ClientDashboard.DescriptionParts | pages/ClientDashboard.tsx:78 | the description column reads as "Category: ", the category name, ". Date Scheduled: ", then the date |
| ClientDashboard.CommaAfterStreet | pages/ClientDashboard.tsx:77 | in the address column the first comma follows the street |
| ClientDashboard.FullAddressRecoverable | pages/ClientDashboard.tsx:77 | street and city are recovered from the address column when the street has no comma |
| ClientDashboard.DescriptionRecoverable | pages/ClientDashboard.tsx:78 | category and date are recovered from the description column |
| ClientDashboard.BookingRow | pages/ClientDashboard.tsx:81-91 | the booked row is 'OPEN', has a null provider, the user's id, "street, city" and the category/date description |
| ClientDashboard.Lookup | pages/ClientDashboard.tsx:46-48 | a query value is found exactly when its key occurs, and it is the value of the first pair with that key |
| ClientDashboard.PaidJob | pages/ClientDashboard.tsx:46-50 | a job is marked paid exactly when payment_status is 'success' and job_id is present and non-empty |
| ClientDashboard.ClientListExact | pages/ClientDashboard.tsx:35-39 | the client list holds exactly the user's rows, newest first |
| ClientDashboard.Dashboard.constructor | pages/ClientDashboard.tsx:11-25 | list view, no jobs, step 1, SNOW, no package, price 0, blank address, today's date |
| ClientDashboard.Dashboard.SetView | pages/ClientDashboard.tsx:117 | Cancel and New Booking set the view |
| ClientDashboard.Dashboard.SelectCategory | pages/ClientDashboard.tsx:132-139 | switching category keeps the package and price already chosen |
| ClientDashboard.Dashboard.SelectOption | pages/ClientDashboard.tsx:152 | picking a package sets its label and its (positive) base price |
| ClientDashboard.Dashboard.ToAddressStep | pages/ClientDashboard.tsx:164-165 | step 1 to 2 only with a package chosen |
| ClientDashboard.Dashboard.ToReviewStep | pages/ClientDashboard.tsx:207-208 | step 2 to 3 only with a street; the city may be empty |
| ClientDashboard.Dashboard.SetStreet | pages/ClientDashboard.tsx:183 | the street input changes only the street |
| ClientDashboard.Dashboard.SetCity | pages/ClientDashboard.tsx:193 | the city input changes only the city |
| ClientDashboard.Dashboard.SetDate | pages/ClientDashboard.tsx:202 | the date input sets the date |
| ClientDashboard.Dashboard.FetchMyJobs | pages/ClientDashboard.tsx:33-43 | on success the list becomes the user's rows newest first; on failure it is kept |
| ClientDashboard.Dashboard.ClearDraft | pages/ClientDashboard.tsx:100-105 | back to the list at step 1 with no package and a blank address |
| ClientDashboard.Dashboard.PostBooking | pages/ClientDashboard.tsx:81-109 | the booked row is appended, the draft cleared and the list refreshed |
| ClientDashboard.Dashboard.HandleCreate | pages/ClientDashboard.tsx:69-110 | no user: only an alert; insert error: nothing but the alert; success: row appended, draft reset with category, price and date kept; loading ends |
| ClientDashboard.Dashboard.HandlePaymentReturn | pages/ClientDashboard.tsx:45-67 | a recognised return marks that row 'PAID' whatever its status and refreshes the list; otherwise nothing changes |
| Workflow.OpenJobsAreStranded | pages/ClientDashboard.tsx:86 | 'OPEN' jobs get no badge and no action from any card and are not pending to the jobs service |
| Workflow.AcceptedJobsStall | services/jobs.ts:30 | a job accepted by the service reads 'accepted', for which no card offers 'start' |
| Workflow.PaymentReturnNeverMatches | supabase/functions/create-checkout/index.ts:40 | the checkout's return query has no payment_status, so the page never marks the job paid; the expected shape would |
| Workflow.ProviderPress | pages/ProviderDashboard.tsx:33-38 | a provider's press requests the successor status, and the jobs table stays unchanged |
| Workflow.ProviderScreenEmpty | pages/ProviderDashboard.tsx:76-85 | with the store's lists the badge is 0 and both tabs are empty |
| Workflow.AdminLoginBouncesBack | pages/AuthPage.tsx:44 | an admin sign-in navigates to a path that redirects to "/" |
| Workflow.PickedRoleVersusAccountRole | pages/AuthPage.tsx:40-44 | an account whose role differs from the picked one is redirected to "/" after sign-in |
| Workflow.SignupLandsSignedOut | pages/AuthPage.tsx:53-56 | after sign-up, from a signed-out store, the target page redirects to "/" |

## Left out

- Realtime: the provider dashboard's insert subscription and its alert (pages/ProviderDashboard.tsx:13-31) are event delivery, not modelled.
- Session start-up: the asynchronous session lookup and the two-second loading timer (context/StoreContext.tsx:25-79); the store starts loading with no user, and the guard takes `loading` as an input.
- The profile upsert during sign-up and the profile lookup during sign-in: the profiles table is not modelled; the looked-up profile is an input of sign-in.
- Effects that re-run `fetchMyJobs` when the user or the view changes are not automatic; `FetchMyJobs` is a separate operation.
- The client dashboard's alerts are modelled as the text its handlers return; the sign-up alert (pages/AuthPage.tsx:54) and the realtime alert are dropped, as are `console.error`, `window.history.replaceState`, navigation mechanics and all rendering and styling.
- StatusColor: the class table is a plain object, so a status text naming an inherited object member (such as 'constructor') would yield a value in the source; the model gives no class for any text outside the five statuses. No code path writes such a status.
- Query-string parsing: a query is a list of key/value pairs, and `get` takes the first pair with the key.
- Dates are opaque strings; locale formatting of dates and prices is not modelled.
- Prices are exact reals; the floating-point behaviour of `price * 100` is not modelled.
- Store-assigned ids and timestamps: `Insert` takes the fresh id as an input, and the creation stamp is the row's insertion position.
- Column defaults of the jobs table are not in the source: a row inserted without a status (services/jobs.ts) has no status in the model.
- `eq('client_id', undefined)` (the list query with no user) is modelled as matching no row.
- JobsService.CreateJob: the `{ data, error }` reply of the jobs service is not modelled; its operations always succeed in the model, and failures are inputs only where a caller reacts to them.
- The submit handler's catch branch ("An unexpected error occurred", pages/AuthPage.tsx:61-63): the store's sign-in and sign-up never throw, so it is not reachable in the model.
- Concurrent sessions and races between providers: operations form one sequential trace.
- The payment processor's session and its URL: the processor's reply is an input.
- Router path matching: the route table compares paths exactly, so the case-insensitive and trailing-slash matching of the router (a request for "/client-dashboard/" reaches the guarded page) is not modelled.
- The landing page, the layout and its chat, the assistant service, the auth service wrapper and the client configuration.
