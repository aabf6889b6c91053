# Rental management (gestion locative) — a verified model

MH Immo's rental management application lets an owner (`proprietaire`), a
property manager (`gestionnaire`) and tenants (`locataire`) share one set of
records: users, properties, leases (contracts), messages and payments. The
browser client keeps these records in a data provider backed by the
browser's storage and seeded with demonstration data. It opens a session
against a fixed table of credentials. Its screens list tenants and
properties, run the messaging and show a dashboard. A small server offers
the same entities over HTTP, stored in a key-value store and guarded by
bearer tokens.

The model follows the program's structure:

- `seqs.dfy` (`Seqs`) holds the sequence library the code leans on:
  - `filter`, `find` and `findIndex`;
  - a stable ascending sort, the behaviour of `Array.prototype.sort`, proved
    sorted, a permutation and stable;
  - `reduce` as a sum.
- `text.dfy` (`Text`) holds the string operations:
  - `toLowerCase`/`toUpperCase` on ASCII, `includes`, `startsWith` and `trim`;
  - `split(' ')`/`join`, proved to round-trip;
  - decimal rendering of the clock value that ids are built from.
- `entities.dfy` (`Entities`) holds the records of the data provider.
- `data_store.dfy` (`DataStore`) is the data provider:
  - it is a class `Store` whose fields the `add*`/`update*` methods replace;
  - the lookups and the message thread are functions;
  - two invariants link properties and contracts. Every occupied property is
    backed by its contract, and every contract's property is occupied. The
    seed satisfies both, and adding a contract preserves them.
- `auth.dfy` (`Auth`) is the session provider (class `Session`). Login checks
  the credential table; logout clears the session; a saved session is resumed
  when the user list changes.
- `messaging.dfy` (`Messaging`) is the messaging screen:
  - who may write to whom;
  - the conversation summaries, newest first;
  - the search and the initials;
  - sending (class `MessagingScreen`).
- `tenants.dfy`, `properties.dfy` and `dashboard.dfy` are the three other
  screens: their lists, filters, badges, forms and figures.
- `server.dfy` (`Server`) is the HTTP server:
  - records are JSON objects (`map<string, Value>`), and object spread is map
    union;
  - each route is a method of class `Backend` over the key-value map.
  - Its invariant is preserved by every write: each user and message record
    carries the id in its key, and each property has a known status and a
    creator.

Clock readings, generated UUIDs, the key order of the key-value store and the
authentication service's answers are parameters of the operations that use
them. Timestamps are integers (milliseconds); the ISO date strings the code
stores are not modelled.

`addMessage` (`src/contexts/DataContext.tsx:325-333`) stores the `read` flag
its caller passes; it does not force it to `false`. `DataStore.Store.AddMessage`
follows the code. The messaging screen is the only caller, and it passes
`false`.

## Model

| member | source | states |
|---|---|---|
| Seqs.SortByCorrect | src/contexts/DataContext.tsx:355 | The sort used for threads and conversations returns its input reordered (same multiset), ascending by key, and keeps equal-key elements in their original order |
| Seqs.CountPermutation | src/components/Messaging.tsx:60-62 | Counting the elements that pass a test does not depend on their order, so counting on the sorted thread counts the stored messages |
| Seqs.FilterSubseq | src/components/TenantsManager.tsx:53-54 | `filter` keeps a subsequence of its input, in order |
| Text.Includes | src/components/Messaging.tsx:147-150 | `includes` holds exactly when the term occurs at some position; the empty term is included in every text |
| Text.Trim | src/components/Messaging.tsx:99 | `trim` returns the piece of the text that lies between a run of leading white space and a run of trailing white space. The piece neither starts nor ends with white space, and it is empty exactly when the text is all white space |
| Text.SplitJoin | src/components/Messaging.tsx:126 | Joining the pieces of `split(' ')` with single spaces gives back the original name |
| Text.DecimalRoundTrip | src/contexts/DataContext.tsx:288 | The decimal text of the clock value inside an id parses back to that value |
| DataStore.GeneratedIdsDiffer | src/contexts/DataContext.tsx:288 | Ids generated with one prefix at two different clock readings differ |
| DataStore.MergeIdempotent | src/contexts/DataContext.tsx:337 | Applying the same patch twice gives what applying it once gives |
| DataStore.Merge | src/contexts/DataContext.tsx:337 | `{ ...prop, ...updates }`: field by field, a value given in the patch wins and an absent one keeps the record's; the empty patch changes nothing |
| DataStore.UpdateMatching | src/contexts/DataContext.tsx:335-339 | `updateProperty` merges the patch into every property with that id and leaves the others untouched; with no such id the list is unchanged |
| DataStore.MarkOccupied | src/contexts/DataContext.tsx:316-320 | The contract's property becomes occupied by the contract's tenant; every other property and every id is kept |
| DataStore.MarkOccupiedIsUpdate | src/contexts/DataContext.tsx:316-320 | Occupying a property is the same as `updateProperty` with status occupied and that tenant |
| DataStore.OccupancyAfterContract | src/contexts/DataContext.tsx:307-323 | Adding a contract keeps "every occupied property is backed by a contract for its tenant" |
| DataStore.ContractsAppliedAfterContract | src/contexts/DataContext.tsx:307-323 | Adding a contract keeps "every contract's property is occupied" |
| DataStore.OccupancyAfterProperty | src/contexts/DataContext.tsx:296-305 | A new vacant property keeps the occupancy invariants |
| DataStore.PropertyByTenant | src/contexts/DataContext.tsx:341-343 | The first property held by the tenant, or none exactly when no property names them |
| DataStore.ContractByTenant | src/contexts/DataContext.tsx:345-347 | The tenant's first contract, or none exactly when no contract names them |
| DataStore.ContractByTenantAfterAppend | src/contexts/DataContext.tsx:313 | Appending a contract keeps the answer for a tenant who already had one, and gives the new contract to a tenant who had none |
| DataStore.MessagesBetween | src/contexts/DataContext.tsx:349-356 | The thread holds exactly the stored messages exchanged between the two users, each as often as it is stored |
| DataStore.MessagesBetweenOrdered | src/contexts/DataContext.tsx:355 | The thread is oldest first; messages with the same time keep their storage order |
| DataStore.MessagesBetweenSymmetric | src/contexts/DataContext.tsx:351-354 | The thread between a and b is the thread between b and a |
| DataStore.ThreadAppend | src/contexts/DataContext.tsx:350-354 | Filtering a concatenation filters each part |
| DataStore.NewestMessageEndsThread | src/contexts/DataContext.tsx:331 | A message stamped no earlier than any stored one ends its thread once added |
| DataStore.SeedConsistent | src/contexts/DataContext.tsx:114-181 | The demonstration properties and contracts satisfy both occupancy invariants, and no contract names the vacant property |
| DataStore.Store.constructor | src/contexts/DataContext.tsx:251-263 | Each collection is the saved one when present, else the seed; with nothing saved the store is valid and consistent |
| DataStore.Store.AddUser | src/contexts/DataContext.tsx:286-294 | Appends the user with a generated id and the current time; nothing else changes; unique ids and consistency are kept |
| DataStore.Store.AddProperty | src/contexts/DataContext.tsx:296-305 | Appends the property, always vacant, whatever the caller passed; the invariants are kept |
| DataStore.Store.AddContract | src/contexts/DataContext.tsx:307-323 | Appends the contract and occupies its property for its tenant; consistency is kept |
| DataStore.Store.AddMessage | src/contexts/DataContext.tsx:325-333 | Appends the message with the caller's `read` flag; nothing else changes |
| DataStore.Store.UpdateProperty | src/contexts/DataContext.tsx:335-339 | The properties become `UpdateMatching` of the old ones; a patch without an id keeps ids unique |
| Auth.FindByEmail | src/contexts/AuthContext.tsx:46 | The first user with that e-mail, or none exactly when nobody has it |
| Auth.LoginOutcome | src/contexts/AuthContext.tsx:41-77 | A session opens exactly when the e-mail belongs to a user and the pair is in the credential table; the session is that user's id, e-mail, name and role |
| Auth.UnknownCredentialRejected | src/contexts/AuthContext.tsx:53-62 | An e-mail outside the credential table never logs in, whatever users exist |
| Auth.SeedOwnerLogin | src/contexts/AuthContext.tsx:53-74 | With the seed users, the owner's pair opens the owner's session and a wrong password is refused |
| Auth.FindById | src/contexts/AuthContext.tsx:31 | The first user with that id, or none exactly when nobody has it |
| Auth.ResumeStep | src/contexts/AuthContext.tsx:25-39 | After one run of the resume effect loading is over. A saved session with a known id is kept, and the current user becomes the first listed user with that id, with the e-mail, name and role from the list. A saved session with an unknown id is erased and the current user is left alone |
| Auth.MountDropsSavedSession | src/contexts/AuthContext.tsx:25-39 | Run as written on mount (empty list first, then the loaded list), the effect loses a valid saved session |
| Auth.ResumeLoadedStep | src/contexts/AuthContext.tsx:25-39 | The corrected step does nothing until the users are loaded, then acts as the effect does |
| Auth.MountKeepsSavedSession | src/contexts/AuthContext.tsx:25-39 | With the corrected step a valid saved session survives the mount and becomes the current user |
| Auth.Session.constructor | src/contexts/AuthContext.tsx:22-23 | Nobody logged in, loading, with whatever was saved |
| Auth.Session.Resume | src/contexts/AuthContext.tsx:25-39 | The session moves by the corrected resume step |
| Auth.Session.Login | src/contexts/AuthContext.tsx:41-77 | Succeeds exactly when `LoginOutcome` opens a session, which becomes current and saved; on failure nothing changes |
| Auth.Session.Logout | src/contexts/AuthContext.tsx:79-82 | Nobody is logged in and nothing is saved |
| Messaging.Counterparts | src/components/Messaging.tsx:43-53 | Exactly the other users the current role may write to |
| Messaging.CounterpartsInOrder | src/components/Messaging.tsx:43-53 | The counterparts keep the order of the user list |
| Messaging.CounterpartsByRole | src/components/Messaging.tsx:45-54 | Nobody sees themself. An owner sees every other user. A tenant sees only managers. A manager sees no manager |
| Messaging.Summarize | src/components/Messaging.tsx:57-69 | The last message is the last element of the time-sorted thread, absent exactly when the thread is empty. The unread count is the number of the pair's messages, in store order, addressed to the current user and unread; it is zero exactly when there is none |
| Messaging.LastMessageIsLatest | src/components/Messaging.tsx:59 | The last message belongs to the thread and no message of the thread is newer |
| Messaging.SentMessageShowsLast | src/components/Messaging.tsx:57-59 | A message just sent becomes the last message of the recipient's conversation with the sender |
| Messaging.Conversations | src/components/Messaging.tsx:57-78 | One summary per counterpart: the same summaries, reordered |
| Messaging.ConversationsOrdered | src/components/Messaging.tsx:72-76 | Newest last message first; conversations with equal times keep the counterpart order |
| Messaging.ConversationsCover | src/components/Messaging.tsx:43-69 | Every entry summarizes a visible counterpart, and every visible counterpart has an entry |
| Messaging.EmptyConversationsLast | src/components/Messaging.tsx:73-75 | Conversations without messages come after every conversation with a message after the epoch |
| Messaging.FilteredConversations | src/components/Messaging.tsx:147-150 | Exactly the conversations whose lowered name or e-mail contains the lowered term |
| Messaging.FilteredConversationsInOrder | src/components/Messaging.tsx:147-150 | The search keeps the order, and an empty term keeps everything |
| Messaging.UserInitials | src/components/Messaging.tsx:125-127 | The initials are the upper-cased first letters of the first two non-empty pieces of the name, in the name's order; fewer when the name has fewer |
| Messaging.InitialsStartWords | src/components/Messaging.tsx:125-127 | Each initial is the upper-cased first letter of a word of the name |
| Messaging.MessagingScreen.constructor | src/components/Messaging.tsx:33-37 | An empty draft, no selection, nothing being sent |
| Messaging.MessagingScreen.Send | src/components/Messaging.tsx:97-123 | With a non-blank draft, a selected user, no send in flight and a logged-in user, one trimmed, unread text message is appended and the draft cleared. Otherwise nothing changes |
| Tenants.Tenants | src/components/TenantsManager.tsx:53-63 | One row per tenant user, in order |
| Tenants.TenantsCorrect | src/components/TenantsManager.tsx:53-63 | Exactly the tenant users get rows; each row's contract and property are that tenant's first ones |
| Tenants.AvailableProperties | src/components/TenantsManager.tsx:66 | Exactly the vacant properties |
| Tenants.AvailableInOrder | src/components/TenantsManager.tsx:66 | The vacant properties keep their order |
| Tenants.FilteredTenants | src/components/TenantsManager.tsx:137-140 | Exactly the rows whose lowered name or e-mail contains the lowered term |
| Tenants.FilteredTenantsInOrder | src/components/TenantsManager.tsx:137-140 | The search keeps the order, and an empty term keeps every row |
| Tenants.StatusBadge | src/components/TenantsManager.tsx:142-147 | "Actif" exactly for a tenant with a contract, else "Sans contrat" |
| Tenants.ContractButtonMeaning | src/components/TenantsManager.tsx:198-204 | The contract button shows exactly when an owner or manager is viewing, no contract names the tenant and some property is vacant |
| Tenants.ContractActivatesTenant | src/components/TenantsManager.tsx:88-108 | After a contract for the tenant is added, the badge reads "Actif" and the button is gone |
| Tenants.EndDate | src/components/TenantsManager.tsx:96 | An empty end date becomes none; any other is kept |
| Tenants.TenantsScreen.constructor | src/components/TenantsManager.tsx:35-50 | Both forms blank, with the prefilled tenant password; no dialog open |
| Tenants.TenantsScreen.OpenContractDialog | src/components/TenantsManager.tsx:131-135 | Selects the tenant, puts its id in the contract form and opens the dialog |
| Tenants.TenantsScreen.HandleCreateTenant | src/components/TenantsManager.tsx:68-86 | Adds a tenant user from the form's name, e-mail and phone. The form is reset and the dialog closed |
| Tenants.TenantsScreen.HandleCreateContract | src/components/TenantsManager.tsx:88-129 | Adds the contract from the form, with an empty end date as none, and occupies its property. The form and selection are reset |
| Properties.FilteredProperties | src/components/PropertiesManager.tsx:87-92 | Exactly the properties whose address or city contains the term and whose status passes the filter |
| Properties.FilteredPropertiesInOrder | src/components/PropertiesManager.tsx:87-92 | The filter keeps the order; no term and no status filter keep everything |
| Properties.StatusFiltersPartition | src/components/PropertiesManager.tsx:90 | A property shown with no status filter is shown under exactly one of the two statuses |
| Properties.StatusBadge | src/components/PropertiesManager.tsx:94-100 | "Occupé" exactly for an occupied property, else "Disponible" |
| Properties.PageTitle | src/components/PropertiesManager.tsx:161 | "Gestion des biens" exactly for an owner, "Biens assignés" for everyone else |
| Properties.FirstPropertyButtonMeansNoProperty | src/components/PropertiesManager.tsx:351-369 | When the list is empty and the add button of the empty list shows, the viewer is an owner and the store has no property at all |
| Properties.PropertiesScreen.constructor | src/components/PropertiesManager.tsx:35-45 | A blank form with the type set to apartment; the dialog closed |
| Properties.PropertiesScreen.HandleSubmit | src/components/PropertiesManager.tsx:47-85 | Adds a vacant property without tenant from the form, then resets the form and closes the dialog |
| Dashboard.OccupiedProperties | src/components/Dashboard.tsx:78 | At most the number of properties; zero exactly when none is occupied |
| Dashboard.AvailableCount | src/components/Dashboard.tsx:312 | Available and occupied add up to all properties |
| Dashboard.AvailableAreVacant | src/components/Dashboard.tsx:312 | The available figure is the number of vacant properties |
| Dashboard.TotalTenants | src/components/Dashboard.tsx:79 | At most the number of users; zero exactly when no user is a tenant |
| Dashboard.MonthlyRevenue | src/components/Dashboard.tsx:80 | Zero without contracts; never negative when no rent is |
| Dashboard.RevenueAfterContract | src/components/Dashboard.tsx:80 | A new contract adds exactly its rent |
| Dashboard.SeedRevenue | src/components/Dashboard.tsx:80 | The seed contracts bring in 1950 a month |
| Dashboard.UnreadMessages | src/components/Dashboard.tsx:82 | At most the number of messages. Zero when nobody is logged in, and zero exactly when no unread message is addressed to the viewer |
| Dashboard.OccupancyRate | src/components/Dashboard.tsx:302-304 | 0 without properties. Otherwise the percentage rounded half up, never above 100 |
| Dashboard.FullOccupancy | src/components/Dashboard.tsx:302-304 | When every property is occupied the rate is 100 |
| Dashboard.PropertyById | src/components/Dashboard.tsx:111 | The first property with that id, or none exactly when nobody has it |
| Dashboard.TenantDataFor | src/components/Dashboard.tsx:107-115 | Only for a tenant. It gives the tenant's first contract. The property is the first one with the id that contract names: present exactly when one exists, none without a contract. The manager is the first user with the manager role, none exactly when there is none |
| Dashboard.TenantPropertyOccupied | src/components/Dashboard.tsx:107-115 | In a consistent store the property a tenant sees is occupied |
| Dashboard.RoleTitle | src/components/Dashboard.tsx:67-74 | The title names the viewer's role, and "Utilisateur" exactly when nobody is logged in |
| Server.BearerSplit | src/supabase/functions/server/index.tsx:23-27 | A "Bearer " header splits into at least two pieces, the second being the token's first word |
| Server.VerifyAuth | src/supabase/functions/server/index.tsx:22-37 | No caller without a header starting with "Bearer "; a caller only for a token the service knows |
| Server.VerifyAuthBearer | src/supabase/functions/server/index.tsx:22-37 | "Bearer <token>", with a token free of spaces, authenticates as the token's user |
| Server.PrefixedKey | src/supabase/functions/server/index.tsx:75 | A key built from a prefix and an id starts with the prefix and gives the id back |
| Server.ByPrefix | src/supabase/functions/server/index.tsx:185 | Exactly the stored records whose key starts with the prefix |
| Server.UsersListing | src/supabase/functions/server/index.tsx:185-188 | Exactly the user records other than the caller's |
| Server.MessagesListing | src/supabase/functions/server/index.tsx:348-356 | Exactly the stored messages between the caller and the other user |
| Server.MessagesListingOrdered | src/supabase/functions/server/index.tsx:356 | The listing is oldest first and stable |
| Server.Pick | src/supabase/functions/server/index.tsx:138 | Destructuring keeps exactly the named fields present in the body |
| Server.FallbackRecord | src/supabase/functions/server/index.tsx:110-114 | Without a stored record the role is the service's role, or "locataire" when it has none |
| Server.NewUserRecord | src/supabase/functions/server/index.tsx:152-159 | The id comes from the service and the creator is the caller. Name and role come from the body and nothing else is stored |
| Server.PropertyRecord | src/supabase/functions/server/index.tsx:213-219 | The status is always "inoccupe" and the creator is the caller. Other body fields are kept, and a body `id` replaces the generated one |
| Server.ContractRecord | src/supabase/functions/server/index.tsx:261-266 | The creator is the caller and the body fields are kept, a body `id` replacing the generated one |
| Server.MessageRecord | src/supabase/functions/server/index.tsx:315-326 | The sender is the caller and the message is unread. The type defaults to "text"; recipient and content come from the body |
| Server.Occupy | src/supabase/functions/server/index.tsx:274-275 | The property becomes occupied with the body's tenant; no other field changes |
| Server.ApplyContract | src/supabase/functions/server/index.tsx:271-278 | Only an existing target property is rewritten; no key is added or removed |
| Server.WriteUser | src/supabase/functions/server/index.tsx:75 | Storing a user under its own id keeps the store's invariant |
| Server.WriteProperty | src/supabase/functions/server/index.tsx:221 | Storing a property with a known status and a creator keeps the invariant |
| Server.WriteMessage | src/supabase/functions/server/index.tsx:328 | Storing a message under its own id, with a sender and a read flag, keeps the invariant |
| Server.WriteOtherKey | src/supabase/functions/server/index.tsx:74 | Writing under a key that starts with none of `user_`, `property_` and `message_` keeps the invariant |
| Server.OutsideFamilies | src/supabase/functions/server/index.tsx:74 | A key whose first character is not that of `user_`, `property_` or `message_` (as `admin_user` and `contract_<id>` are) starts with none of them |
| Server.ApplyContractValid | src/supabase/functions/server/index.tsx:270-278 | The contract side effect keeps the invariant |
| Server.Backend.constructor | src/supabase/functions/server/index.tsx:5 | An empty, valid store |
| Server.Backend.Init | src/supabase/functions/server/index.tsx:40-89 | Creates the owner once: when `admin_user` exists nothing changes. A refused creation answers 500. Otherwise the owner is stored under `admin_user` and its user key |
| Server.Backend.Login | src/supabase/functions/server/index.tsx:92-121 | A failed sign-in answers 401. Otherwise the answer is the stored record, or the fallback record |
| Server.Backend.PostUsers | src/supabase/functions/server/index.tsx:124-168 | 401 without a caller, then 403 unless the caller is an owner, then 400 when creation fails. Otherwise the new user is stored |
| Server.Backend.GetUsers | src/supabase/functions/server/index.tsx:171-193 | 401 without a caller, 403 unless owner or manager; an owner or manager gets the listing, which holds exactly the user records other than the caller's |
| Server.Backend.PostProperties | src/supabase/functions/server/index.tsx:196-228 | 401 without a caller, 403 unless owner or manager; else a vacant property record is stored |
| Server.Backend.GetProperties | src/supabase/functions/server/index.tsx:231-246 | 401 without a caller; else every property record |
| Server.Backend.PostContracts | src/supabase/functions/server/index.tsx:249-285 | 401 without a caller. Otherwise the contract is stored and its existing target property is occupied |
| Server.Backend.GetContracts | src/supabase/functions/server/index.tsx:288-303 | 401 without a caller; else every contract record |
| Server.Backend.PostMessages | src/supabase/functions/server/index.tsx:306-335 | 401 without a caller; else an unread message from the caller is stored |
| Server.Backend.GetMessages | src/supabase/functions/server/index.tsx:338-363 | 401 without a caller; else the caller's thread with the user, oldest first |

## Left out

- Browser storage and JSON: the saved collections and the saved session are
  optional values handed to the constructors. The write-back effects are not
  modelled.
- Rendering, toasts, dialogs' visual state, the 500 ms and 200 ms simulated
  delays, scrolling, `getGreeting` (it reads the wall clock), `getRoleColor`,
  `getRoleLabel`, the mock recent activities and the mock pending-incident
  count are left out. They carry no logic beyond constants.
- Dates are integer milliseconds; ISO strings, `new Date(...).getTime()` on
  malformed text (NaN in the comparator) and time zones are not modelled.
- `parseFloat`/`parseInt` of the form fields: the handlers take the parsed
  numbers as parameters. NaN and fractional prices are not modelled.
- Dashboard.OccupancyRate: rounds the exact ratio half up. A float quotient
  that lands just beside a half is not modelled.
- Text.Lower: `toLowerCase`, `toUpperCase` and `trim` are modelled on ASCII
  letters and ASCII white space only.
- Auth.Session.Resume: keeps the id, e-mail, name and role of the resumed
  user, as `login` does. The code stores the whole user record in that case.
- Auth.Session.Resume: follows the corrected step, which waits for the user
  list to load. `Auth.ResumeStep` is the step as written.
- Server.ByPrefix: the order in which the key-value store lists a prefix is
  not known. The module holding `getByPrefix` is not part of this model, so
  the listing order is a parameter.
- JSON on the server: a value in a request body or a stored record is a
  string, an integer, a boolean or null. Fractional numbers and nested
  objects or arrays are not modelled, so a fractional rent or price in a
  request body is outside the model.
- The authentication service (`getUser`, `signInWithPassword`, `createUser`)
  is a parameter: a token table or the service's answer. Its errors are the
  `None` case.
- Exceptions caught by the handlers ("Internal server error", 500), CORS,
  logging, Hono routing and the health endpoint are not modelled.
- Payments: the provider only stores and exposes them; no screen in this
  model changes them.
- React's effect scheduling is modelled only as far as the resume effect
  needs: the effect runs on mount with the initial user list, then again when
  the list changes.

## Findings

| source | as written | input that shows it | evidently intended | confidence | as-written member | corrected member |
|---|---|---|---|---|---|---|
| src/contexts/AuthContext.tsx:25-39 | The resume effect first runs with the data provider's initial empty user list (src/contexts/DataContext.tsx:244), finds no user and erases the saved session | A reload with the owner's session saved (`admin-1`) and the seed users: after both runs nobody is logged in and nothing is saved | A saved session whose user exists is resumed once the users have loaded | high; not executed | Auth.MountDropsSavedSession | Auth.MountKeepsSavedSession |
