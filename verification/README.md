# Profile service: verified model

A Dafny model of a small profile service: HTTP requests are routed, checked and handled one at a
time against five tables (profiles, contacts, favourites, privacy, notifications), avatars arrive
as Base64, and a worker thread is started and stopped by a controller.

`dafny verify dfyconfig.toml` checks everything.

## Structure

| file | content |
|---|---|
| Outcomes.dfy | optional values and exceptions |
| Base64.dfy, Base64Laws.dfy | the decoder loop; what it makes of encoded data |
| Routing.dfy, RoutingLaws.dfy | route table, nested map, resolution, dispatch; their agreement |
| OwnedRows.dfy | tables keyed by owner and item, and the ordered listing |
| Database.dfy | the tables, every SQL statement as a function on them, the constraints |
| Requests.dfy | a request as a step: plan, effect, answer, history |
| Repositories.dfy, Handlers.dfy, RequestManager.dfy | the program's objects, proved against those steps |
| WireLaws.dfy | from URL to plan |
| BodyLaws.dfy | from JSON body to statement and answer, and how failures are answered |
| Invariants.dfy | what every request and every history keeps |
| Success.dfy | exactly when modifications succeed |
| Projection.dfy | users do not interfere |
| ProfileLaws.dfy | creating, patching and illustrating a profile |
| ListHistory.dfy, SettingsHistory.dfy, ProfileHistory.dfy | what reads show of the history of writes |
| Shortfalls.dfy | promises not kept: requests that show it, and the exact conditions |
| EndToEnd.dfy, ReadAfterWrite.dfy | the same from URL to answer, and from the JSON of a write to the next read |
| Schemas.dfy | the two schema files as instances |
| ServerProtocol.dfy | start, stop, worker and clients as interleaved steps |

## How to read it

`Requests.Serve` is one request; `Requests.After` the store after a history of them. The objects
of RequestManager.dfy are proved to do exactly that, so the laws about histories are laws about
them. A request carries what its first and second SQL statement would throw because of the
connection, or nothing where the store answers; laws that need an answering store say so.
`Database.Environment` stands for what is left to the outside: which texts the columns accept
(two schema files exist and differ), timestamp parsing, avatar URLs and the checker of users.
The one thing assumed of it is that a stored id, read back, denotes itself.

The clock that dates rows is logical and strictly increasing. HTTP verbs are numbers; only their
being distinct is used.

## Where the code does something else than meant

- The Base64 loop starts at -6 instead of -8. It decodes the bit string with two zero bits put in
  front: the decoded image is the original divided by four, right only for all-zero data. The same
  loop from -8 is proved to be the inverse of encoding, and -8 to be the only such offset.
- Global notification settings are written under the empty chat id and read under NULL. No history
  makes GET /notifications show anything but the unmuted default, so it reports the last PUT
  exactly if that did not mute. With UUID columns the PUT itself always fails.
- The fallback from chat to global settings is not taken for a chat without settings, only if the
  query throws.
- A first PATCH that leaves the username unset stores the empty one; from then on every other user
  without a username gets 409.
- A PATCH is answered 409 "username already taken" if it is taken, but also if a text does not fit or
  the connection of its second statement fails.
- An avatar upload of a user without a profile is answered 200 with a URL and stores none.
- Stop hangs if its own wake-up connection fails while the worker is in accept with nothing pending,
  until a client connects or accept fails; and, whatever becomes of that connection, while the worker
  reads from a client that sends nothing, until it does or hangs up. Where handling a request and
  writing its answer end, it hangs in no other way.
- If creating the worker thread fails, the running flag stays set: Start does nothing until a Stop.

## Model

| member | source | states |
|---|---|---|
| Base64.DecodeFrom | include/profile_service/utils/json_utils.hpp:52-69 | The loop with its wrapping 32-bit accumulator, started at any offset from -8 to -1, returns the bytes that unbounded arithmetic gives: the base-64 value of the digits before the first '=', cut down to whole bytes, for inputs of any length. |
| Base64.DecodeBase64 | include/profile_service/utils/json_utils.hpp:46-70 | The program's decoder is that loop started at -6. |
| Base64.FindInTable | include/profile_service/utils/json_utils.hpp:48-56 | The search of the alphabet string returns a digit's own position and -1 for every other character. |
| Base64.AlphabetIsTable | include/profile_service/utils/json_utils.hpp:48-49 | The alphabet string is the table of RFC 4648, section 4. |
| Base64.TracksNext | include/profile_service/utils/json_utils.hpp:61-66 | One loop step keeps: val is the base-64 value V modulo 2^32, the decoded bytes have the value V >> (valb + 8), and bits held = 8 bytes + valb + 8. |
| Base64.WrapStep | include/profile_service/utils/json_utils.hpp:61 | Wrapping to 32 bits after the shift and after the addition keeps val congruent to the unbounded value. |
| Base64.ByteOfWrapped | include/profile_service/utils/json_utils.hpp:64 | The byte shifted out of the wrapped accumulator is the byte of the unbounded one. |
| Base64.AccumulatorStep | include/profile_service/utils/json_utils.hpp:61-65 | Six bits more either only grow the remainder or complete exactly one byte. |
| Base64.SextetsAppend | include/profile_service/utils/json_utils.hpp:54-59 | The digits read from s + t are those of s, then those of t unless s holds a '='. |
| Base64Laws.OutputBits | include/profile_service/utils/json_utils.hpp:52-66 | Every output bit: first start + 8 zero bits (two, as the program is written), then the bits of the digits in order; with the length this determines the output. |
| Base64Laws.EncodeValue | include/profile_service/utils/json_utils.hpp:46-70 | Encoding as in section 4 of RFC 4648 keeps the value of a byte string, followed by the fill bits of its last group. |
| Base64Laws.DecodeEncoded | include/profile_service/utils/json_utils.hpp:52-69 | From any start offset that leaves room for the fill bits, decoding an encoding gives as many bytes as were encoded, holding the value shifted right by start + 8 bits. |
| Base64Laws.ProgramDecodesQuarter | include/profile_service/utils/json_utils.hpp:46-70 | As written (offset -6), decoding the encoding of b gives |b| bytes of value Value(b) / 4. |
| Base64Laws.ProgramRoundTrip | include/profile_service/utils/json_utils.hpp:46-70 | So the program inverts the encoding of b if and only if every byte of b is zero. |
| Base64Laws.RfcRoundTrip | include/profile_service/utils/json_utils.hpp:52-69 | Started at -8, the same loop inverts the encoding for every byte string and all three paddings. |
| Base64Laws.OnlyRfcStartInverts | include/profile_service/utils/json_utils.hpp:52 | Among the offsets -8 to -1 only -8 inverts the encoding. |
| Base64Laws.ProgramConfuses | include/profile_service/utils/json_utils.hpp:46-70 | Two byte strings are decoded alike exactly if they have the same length and differ at most in the last two bits. |
| Base64Laws.OutputLength | include/profile_service/utils/json_utils.hpp:54-67 | n digits before the first '=' give floor((6n + 2) / 8) bytes, and none exactly if no digit precedes the first '='. |
| Base64Laws.JunkIsSkipped | include/profile_service/utils/json_utils.hpp:56-59 | Characters outside the alphabet, other than '=', can be inserted anywhere without effect. |
| Base64Laws.PaddingStops | include/profile_service/utils/json_utils.hpp:55 | Nothing after the first '=' has an effect. |
| Base64Laws.PrefixStable | include/profile_service/utils/json_utils.hpp:54-67 | More input never changes the bytes already put out. |
| Routing.AddRoutes | src/api_spec.cpp:11-14 | Adding rows one by one yields the flat table in which a later row replaces an earlier one of the same key. |
| Routing.KeyInjective | src/api_spec.cpp:12-14 | The printed key determines path and verb, for paths without a colon. |
| Routing.BuildRouteMap | src/request_manager.cpp:110-120 | In whatever order the flat table is visited, the nested map finds each row at its path and method and nothing else. |
| Routing.BuildRoutes | src/request_manager.cpp:110-120 | Both loops together: for any table of colon-free paths the map finds exactly the last row of each path and verb. |
| RoutingLaws.TableServes | src/api_spec.cpp:16-41 | At every path and verb the last row of the service's table is the one written down independently: handler id, verb and scope, or none. |
| RoutingLaws.ResolveServes | src/request_manager.cpp:67-108 | Resolution yields the row, with its scope, of the target itself, else that of its one fallback route, else nothing. |
| RoutingLaws.TableIsScoped | src/api_spec.cpp:16-41 | Every row of the table carries the scope of its action. |
| RoutingLaws.DispatchCoherent | src/request_manager.cpp:67-108 | For every target and verb: the handler bound to the resolved id selects that id's action on its own, its path parameter is present except for the target "/", and the exemption from the user check is exactly profile creation. |
| RoutingLaws.ParamRoundTrip | src/request_manager.cpp:131-143 | A contact, favourite or chat route filled with any string is resolved to that route with that parameter. |
| RoutingLaws.UserRoundTrip | src/request_manager.cpp:102-105 | GET /p reaches the profile of p if and only if p is not empty, has no slash and is not me, contacts, favorites or notifications. |
| WireLaws.RoutedPlan | src/request_manager.cpp:26-65 | A resolved and admitted request is handled by the action of its route, never not_found; every other one is answered 404, 401 or 403; without a user only profile creation acts. |
| WireLaws.OptionsAnswered | src/request_manager.cpp:32-34 | OPTIONS is answered 204 without a body, whatever the target, and changes nothing. |
| WireLaws.Refused | src/request_manager.cpp:36-58 | An unknown route is answered 404; else, except on the creation route, a missing or empty user header 401 and a user without the scope 403; nothing changes. |
| WireLaws.RootAnswered | src/handlers/profile_handler.cpp:80-84 | GET / is routed to a profile without an id and answered 400 user_id required. |
| WireLaws.ContactParamPlan | src/request_manager.cpp:131-143 | DELETE /contacts/p, allowed contacts:write, removes the contact p of the requesting user, p as it stands in the URL. |
| WireLaws.FavoriteParamPlan | src/request_manager.cpp:131-143 | POST and DELETE /favorites/p, allowed favorites:write, add and remove the favourite p of the requesting user. |
| WireLaws.ChatParamPlan | src/request_manager.cpp:131-143 | GET and PUT /notifications/p, allowed the route's own scope, read and update the user's settings for the chat p. |
| WireLaws.FixedPlanOfContacts | src/api_spec.cpp:28-29 | GET and POST /contacts, allowed the route's own scope, list the contacts of the requesting user and add the one that the body names. |
| WireLaws.FixedPlanOfFavorites | src/api_spec.cpp:33 | GET /favorites, allowed favorites:read, lists those of the requesting user. |
| WireLaws.FixedPlanOfPrivacy | src/api_spec.cpp:24-25 | Likewise for the privacy URL. |
| WireLaws.FixedPlanOfAvatar | src/api_spec.cpp:20-21 | POST and DELETE /me/avatar, allowed profile:write, upload and clear the avatar of the requesting user. |
| WireLaws.FixedPlanOfUser | src/api_spec.cpp:16-40 | Likewise for the profile and global notification URLs, and for profile creation, which needs no user. |
| WireLaws.UserPlan | src/request_manager.cpp:102-105 | GET /p, allowed profile:read, reads the profile of p, unless p is empty, has a slash or names another GET route. |
| WireLaws.PlansAreScoped | src/request_manager.cpp:42-55 | Whatever a request reads or changes, other than by creating a profile, it does for a user who is allowed the scope of just that: every change is checked against the write scope of its area, every read against the read scope. |
| Requests.PlanFor | src/request_manager.cpp:26-65 | A request reads and changes only rows of its user, except to create a profile or look one up; profiles are created on the creation route only, and that route does nothing else; a planned statement is answered by a success status if it succeeds and by an error status if it fails. |
| BodyLaws.CreationBody | src/handlers/profile_handler.cpp:37-55 | For every body: a profile is created under the non-empty string user_id and answered with its stored form; a missing or empty one is answered 400, any other body 500. |
| BodyLaws.PatchBody | src/handlers/profile_handler.cpp:108-119 | For every body that parses: each text of the patch is the string under its own key, unset exactly if that key is missing; a present key with another type makes it fail. |
| BodyLaws.PatchErrors | src/handlers/profile_handler.cpp:130-136 | A PATCH with a malformed body, a field of another type than string, without a profile or with a failed read changes nothing and is answered 500 update failed, or 409 if the message of a malformed body or a failed read mentions a taken username. |
| BodyLaws.MentionsMeans | src/handlers/profile_handler.cpp:132 | The search for that text succeeds exactly if it stands somewhere in the message. |
| BodyLaws.AvatarBody | src/handlers/profile_handler.cpp:139-162 | For every body: the URL stored and answered is that of the user and the string content_type, or image/jpeg; every other body has its own error. |
| BodyLaws.ContactBody | src/handlers/contacts_handler.cpp:47-69 | For every body: the string contact_id is added for the requesting user with the string alias, or the empty one, and the 201 answer shows just these; a missing or empty contact_id is answered 400, any other body 409. |
| BodyLaws.PrivacyBody | src/handlers/privacy_handler.cpp:42-58 | For every body: each visibility is the string under its own key, or everyone; any other body is answered 500. |
| BodyLaws.NotificationBody | src/handlers/notifications_handler.cpp:123-161 | For every body: the flag written is the Boolean muted, or false; the mute-until is none for a missing, null or empty mutedUntil, else the time of its text; every other body is answered 400 with its own message. |
| BodyLaws.FailedReads | src/handlers/contacts_handler.cpp:27-45 | Each read is answered by its own error exactly if its statement throws, or finds no profile. |
| BodyLaws.FailedModification | src/handlers/profile_handler.cpp:159-161 | A failed modification is answered by its own status and text, followed by the exception's where the program appends it, and changes nothing. |
| Repositories.Connection.ExecuteModify | src/repository/postgres_connection.cpp:241-253 | A statement takes effect as a whole or throws and changes nothing, and keeps every constraint. |
| Repositories.ProfileRepository.Create | src/repository/profile_repository.cpp:10-26 | Inserts a profile or leaves the existing one, and returns the stored row. |
| Repositories.ProfileRepository.GetByID | src/repository/profile_repository.cpp:28-41 | Throws what the connection throws; else returns the user's row field by field under its stored id, throws "Profile not found" for an id without a row or too long to be stored, and the store's message for an id it rejects. |
| Repositories.ProfileRepository.Update | src/repository/profile_repository.cpp:43-59 | Writes four texts, unset ones as empty strings; every failure is reported as a taken username. |
| Repositories.ProfileRepository.UpdateAvatarURL | src/repository/profile_repository.cpp:61-66 | Sets the avatar URL of an existing row. |
| Repositories.ContactsRepository.List | src/repository/contacts_repository.cpp:9-25 | The loop returns the selected rows, mapped, in the order of the query. |
| Repositories.ContactsRepository.Add | src/repository/contacts_repository.cpp:27-38 | Inserts a contact or changes its alias. |
| Repositories.ContactsRepository.Remove | src/repository/contacts_repository.cpp:40-45 | Deletes the row of owner and contact. |
| Repositories.FavoriteRepository.List | src/repository/favorites_repository.cpp:10-26 | The loop returns the selected rows, mapped, in the order of the query. |
| Repositories.FavoriteRepository.Add | src/repository/favorites_repository.cpp:28-34 | Inserts a favourite or changes nothing. |
| Repositories.FavoriteRepository.Remove | src/repository/favorites_repository.cpp:36-41 | Deletes the row of user and chat. |
| Repositories.PrivacyRepository.Get | src/repository/privacy_repository.cpp:9-30 | Returns the row, or three times "everyone". |
| Repositories.PrivacyRepository.Update | src/repository/privacy_repository.cpp:32-45 | Inserts or replaces all three settings. |
| Repositories.NotificationRepository.Get | src/repository/notifications_repository.cpp:13-44 | Looks for a NULL chat id or for the given one; a missing row yields unmuted defaults. |
| Repositories.NotificationRepository.Upsert | src/repository/notifications_repository.cpp:46-72 | Inserts or updates the row of user and chat, a missing chat id being written as the empty string. |
| Handlers.ProfileHandler.Handle | src/handlers/profile_handler.cpp:18-35 | Dispatches on verb and target to the selected action. |
| Handlers.ProfileHandler.HandleCreateProfile | src/handlers/profile_handler.cpp:37-55 | Carries out the plan of profile creation. |
| Handlers.ProfileHandler.HandleGetMyProfile | src/handlers/profile_handler.cpp:57-75 | Answers the user's own profile. |
| Handlers.ProfileHandler.HandleGetProfileByID | src/handlers/profile_handler.cpp:77-100 | Answers the profile named in the URL. |
| Handlers.ProfileHandler.HandleUpdateProfile | src/handlers/profile_handler.cpp:102-137 | Read, assign the given fields, write back; 409 exactly if the exception mentions a taken username. |
| Handlers.ProfileHandler.HandleUploadAvatar | src/handlers/profile_handler.cpp:139-162 | Decodes, refuses empty data, stores the URL. |
| Handlers.ProfileHandler.HandleDeleteAvatar | src/handlers/profile_handler.cpp:164-174 | Stores an empty URL. |
| Handlers.ContactsHandler.Handle | src/handlers/contacts_handler.cpp:14-25 | Dispatches on verb and target to the selected action. |
| Handlers.ContactsHandler.HandleGetContacts | src/handlers/contacts_handler.cpp:27-45 | The loop answers all listed contacts in order. |
| Handlers.ContactsHandler.HandleAddContact | src/handlers/contacts_handler.cpp:47-69 | Carries out the plan of an addition. |
| Handlers.ContactsHandler.HandleDeleteContact | src/handlers/contacts_handler.cpp:71-83 | Removes the contact named in the URL. |
| Handlers.FavoritesHandler.Handle | src/handlers/favorites_handler.cpp:12-25 | Dispatches on verb and target to the selected action. |
| Handlers.FavoritesHandler.HandleGetFavorites | src/handlers/favorites_handler.cpp:27-44 | The loop answers all listed favourites in order. |
| Handlers.FavoritesHandler.HandleAddFavorite | src/handlers/favorites_handler.cpp:46-58 | Adds the chat named in the URL. |
| Handlers.FavoritesHandler.HandleRemoveFavorite | src/handlers/favorites_handler.cpp:60-72 | Removes the chat named in the URL. |
| Handlers.PrivacyHandler.Handle | src/handlers/privacy_handler.cpp:12-23 | Dispatches on verb and target to the selected action. |
| Handlers.PrivacyHandler.HandleGetPrivacy | src/handlers/privacy_handler.cpp:25-40 | Answers the user's settings. |
| Handlers.PrivacyHandler.HandleUpdatePrivacy | src/handlers/privacy_handler.cpp:42-58 | Carries out the plan of a privacy update. |
| Handlers.NotificationsHandler.Handle | src/handlers/notifications_handler.cpp:13-28 | Dispatches on verb and target to the selected action. |
| Handlers.NotificationsHandler.HandleGetNotifications | src/handlers/notifications_handler.cpp:30-53 | Answers the global settings. |
| Handlers.NotificationsHandler.HandleGetChatNotifications | src/handlers/notifications_handler.cpp:55-86 | Answers the settings of a chat, or the global ones if their query throws. |
| Handlers.NotificationsHandler.HandleUpdateNotifications | src/handlers/notifications_handler.cpp:88-121 | Carries out the plan of an update without a chat id. |
| Handlers.NotificationsHandler.HandleUpdateChatNotifications | src/handlers/notifications_handler.cpp:123-161 | Carries out the plan of an update for a chat. |
| Handlers.NotificationsHandler.Update | src/handlers/notifications_handler.cpp:130-157 | The body parsing and the upsert that both updates do. |
| RequestManager.HandlerFactory.constructor | src/handlers/handler_factory.cpp:10-40 | Every handler id is bound to the handler of its kind, so 501 is never answered. |
| RequestManager.Manager.constructor | src/request_manager.cpp:14-24 | On any store that meets the constraints, rows included, a new manager has a route map that finds exactly the service's table, and leaves the store alone. |
| RequestManager.Manager.Handle | src/request_manager.cpp:26-65 | The whole path of a request through router, checks, binding, handler and repository is the step that the laws speak of. |
| RequestManager.Manager.ServeAll | src/server.cpp:47-78 | Requests served one after the other leave of any store what the steps make of it. |
| Invariants.ExecKeeps | migrations/001_init.sql:5-75 | Every successful statement keeps the primary keys, unique columns and foreign keys, and no profile is lost. |
| Invariants.PerformIsStatement | src/repository/postgres_connection.cpp:241-253 | A request changes nothing if it is answered by an error, and else has the effect of one successful statement or none. |
| Invariants.RequestKeeps | migrations/001_init.sql:22-75 | Every request keeps all constraints, loses no profile, and changes nothing if it is answered by an error. |
| Invariants.HistoryKeeps | migrations/001_init.sql:5-75 | All constraints hold after every history of requests. |
| Invariants.RunExtends | src/server.cpp:47-78 | Requests served from the store that a history left make the longer history. |
| Invariants.HistoryNamesChats | src/repository/notifications_repository.cpp:46-72 | No history writes a NULL chat id, though the column allows it. |
| Invariants.ProfilesGrow | src/repository/profile_repository.cpp:10-26 | The set of profiles only grows along a history. |
| Invariants.TablesAreConsistent | migrations/001_init.sql:22-75 | After every history keys are unique and every owner and contact id names an existing profile. |
| OwnedRows.ConstraintsMean | migrations/001_init.sql:22-45 | What the recursive table constraints say of any two rows. |
| OwnedRows.ListingIsBackwards | src/repository/contacts_repository.cpp:10-14 | With increasing creation times the ORDER BY query returns an owner's rows in reverse order of insertion. |
| Projection.OthersLeave | src/repository/contacts_repository.cpp:27-45 | A statement for another user leaves a user's view and the set of profiles alone. |
| Projection.OwnAlike | src/repository/contacts_repository.cpp:27-45 | A statement has the same outcome on any two stores that its user sees alike, though clocks and other rows differ. |
| Projection.OwnRequestAlike | src/handlers/contacts_handler.cpp:47-83 | The same for a whole request, and its answer to a modification is the same. |
| Projection.OthersDoNotMatter | src/handlers/profile_handler.cpp:152-153 | For every history: contacts in order, favourites, privacy, notifications and avatar of a user, and the set of profiles, are what they would be without all requests of other users but profile creations. |
| Projection.OthersAreNotSeen | src/handlers/contacts_handler.cpp:27-45 | Nor do those requests change the answers to the user's listings, privacy reads and modifications, nor, but for the generated id, those to notification reads. |
| ListHistory.SinceMeans | src/repository/contacts_repository.cpp:27-45 | The date of an item is its first addition since its last removal and its data that of the last addition; an undated item has every addition undone. |
| ListHistory.ReplayShowsHistory | src/repository/contacts_repository.cpp:9-25 | Replaying operations yields a list with each dated item once, newest date first, with its last data. |
| ListHistory.HistoryIsReplay | src/repository/contacts_repository.cpp:27-45 | After every history a user's contacts and favourites are the replay of the successful operations. |
| ListHistory.ContactsRefineHistory | src/repository/contacts_repository.cpp:9-45 | The contact listing after any history: each contact whose last successful operation was an addition, once, with the last alias, newest first by the first addition since the last removal. |
| ListHistory.FavoritesRefineHistory | src/repository/favorites_repository.cpp:10-41 | The same for favourites, where adding again changes nothing. |
| ListHistory.PutUnit | src/repository/favorites_repository.cpp:29-31 | Adding a favourite again changes nothing. |
| ListHistory.ListingsAreAnswered | src/handlers/contacts_handler.cpp:27-45 | After every history the user's GET requests are answered 200 with items that all carry the user's stored id and whose contact or chat ids, aliases and order are those of the history. |
| SettingsHistory.StoredIsLastSetting | src/repository/notifications_repository.cpp:46-72 | The stored flag and mute-until of a user and chat are those of the last successful update. |
| SettingsHistory.NoGlobalRow | src/repository/notifications_repository.cpp:20-22 | So after every history the lookup of global settings finds no row. |
| SettingsHistory.GlobalIsNeverSet | src/handlers/notifications_handler.cpp:30-53 | So GET /notifications shows the unmuted default after every history, whatever was written. |
| SettingsHistory.ChatReadsLastWrite | src/handlers/notifications_handler.cpp:55-86 | With the store answering, a chat's GET reports the flag of the last successful PUT, under a generated id and the user's stored id, else unmuted, and never a mute-until; the fallback is taken exactly if the chat's SELECT throws, and then shows unmuted or, if that throws too, the error. |
| SettingsHistory.GlobalUpdateIsEmptyChat | src/repository/notifications_repository.cpp:48-50 | After a successful global update the chat GET of the empty id reports its flag, under the user's stored id. |
| SettingsHistory.IdsIdentify | src/repository/notifications_repository.cpp:13-44 | Two answers that show the same generated id are of the same user and chat. |
| SettingsHistory.PrivacyReadsLastWrite | src/repository/privacy_repository.cpp:9-45 | GET /me/privacy reports the last successful PUT as a whole, else the defaults. |
| SettingsHistory.StoredIsLastPrivacy | src/repository/privacy_repository.cpp:32-45 | The stored privacy settings are those of the last successful update. |
| Schemas.SchemasAreCanonical | docker/init.sql:5-46 | Both schemas meet the one assumption made of id columns: a stored id, read back, denotes itself. |
| Schemas.GlobalUpdateBySchema | docker/init.sql:39-46 | With the text ids of the migration a global update succeeds exactly for users with a profile; with the UUIDs of the Docker schema, of which the empty text is none, it always throws. |
| Schemas.DockerIsStricter | docker/init.sql:5-31 | Every text that fits the Docker schema fits the migration, and exactly which texts fit the migration only. |
| ProfileLaws.PatchIsOverlay | src/handlers/profile_handler.cpp:102-128 | A PATCH on an existing profile succeeds exactly if its second statement is answered, the texts fit and no other user has the resulting username; then GET shows the patch laid over the former view, with avatar and all other rows untouched; else 409 and nothing changes. |
| ProfileLaws.UpdateEffect | src/repository/profile_repository.cpp:43-55 | The UPDATE stores the patched view, unset fields as empty strings, in the user's own row only. |
| ProfileLaws.UsernamesAreDistinct | migrations/001_init.sql:9 | After every history two users never have the same username, the empty one included. |
| ProfileLaws.EmptyUsernameIsUnique | src/repository/profile_repository.cpp:48-58 | Once another user is stored with the empty username, every PATCH that results in an empty one is answered 409 and changes nothing. |
| ProfileLaws.CreationKeepsProfiles | src/repository/profile_repository.cpp:10-15 | Creation adds an empty profile, or leaves an existing one as it is. |
| ProfileLaws.UploadRefusedIfNoDigits | src/handlers/profile_handler.cpp:146-153 | An upload is refused as empty exactly if no digit precedes the first '='; else it sets the user's own avatar URL. |
| ProfileLaws.ProfileIsAnswered | src/handlers/profile_handler.cpp:57-75 | A profile's GET answers what is stored of it, or 404. |
| ProfileHistory.ExistsIfCreated | src/repository/profile_repository.cpp:10-15 | After every history a user has a profile if and only if it was created. |
| ProfileHistory.StoredIsLastText | src/repository/profile_repository.cpp:43-55 | After every history each of the four texts is stored as the last successful PATCH that set it has it, empty if none did, and NULL if there was no PATCH. |
| ProfileHistory.UsernameTakenByHistory | migrations/001_init.sql:9 | A username is taken if and only if the history of PATCHes has left another user with it. |
| ProfileHistory.StoredIsLastAvatar | src/repository/profile_repository.cpp:61-66 | After every history the stored avatar URL is that of the last upload or deletion that was answered with success while the profile existed. |
| ProfileHistory.ProfileReadsHistory | src/handlers/profile_handler.cpp:57-100 | A profile's GET is answered from the history alone: 404 unless created, else each text as set last and the last avatar URL. |
| Shortfalls.GlobalReadsLastWriteIff | src/handlers/notifications_handler.cpp:30-53 | GET /notifications reports the flag of the user's last successful PUT /notifications if and only if there was none or it did not mute. |
| Shortfalls.MutingIsLost | src/handlers/notifications_handler.cpp:88-121 | The history that shows it: a user is created and mutes everything, which is answered 204; the next GET shows unmuted. |
| Shortfalls.PatchRefusedIff | src/repository/profile_repository.cpp:43-58 | With the store answering and texts that fit, a PATCH is answered 409 if and only if PATCHes have left another user with the username it results in, the empty one if none was ever set; else it is answered with the patched profile. |
| Shortfalls.SecondBioIsRefused | src/repository/profile_repository.cpp:48-58 | The history that shows it: of two new users who set their bio and no username the first is answered 200 and the second 409. |
| Shortfalls.PatchConflictIff | src/repository/profile_repository.cpp:43-58 | A PATCH past its read and its body is answered 409 if and only if the resulting username is another user's, or a text does not fit, or the connection of the second statement fails. |
| Shortfalls.NothingIsTaken | src/repository/profile_repository.cpp:43-58 | The history that shows it: the only user there is sets a first name that does not fit, or loses the connection meanwhile, and is answered that the username is taken. |
| Shortfalls.UploadIsStoredIff | src/repository/profile_repository.cpp:61-66 | After every history an avatar change is answered with success if and only if the store answers and does not reject the user id, and then stores its URL, in the user's row only, if and only if the profile was created; else nothing changes. |
| Shortfalls.UploadIsLost | src/handlers/profile_handler.cpp:146-161 | The request that shows it: on the empty store an upload is answered 200 with a URL, and the store stays empty. |
| Success.ExecSucceedsIff | migrations/001_init.sql:5-75 | On consistent tables a statement succeeds if and only if its ids and texts fit their columns and the users it refers to have profiles. |
| Success.RequestSucceedsIff | src/repository/postgres_connection.cpp:241-253 | After every history a modifying request succeeds if and only if the store answers and its statement is admissible; else it is answered with its own error and changes nothing. |
| EndToEnd.ContactsOverHttp | src/handlers/contacts_handler.cpp:27-45 | GET /contacts, for a user allowed contacts:read, answers the contacts as the user's history has them, in every field. |
| EndToEnd.FavoritesOverHttp | src/handlers/favorites_handler.cpp:27-44 | GET /favorites, for a user allowed favorites:read, answers the favourites as the user's history has them, in every field. |
| EndToEnd.NotificationsOverHttp | src/handlers/notifications_handler.cpp:30-86 | For a user allowed notifications:read GET /notifications/c answers the settings of the last successful update for c, under the user's stored id, and GET /notifications never shows one. |
| EndToEnd.ProfileOverHttp | src/handlers/profile_handler.cpp:57-75 | GET /me, for a user allowed profile:read, answers the profile as the history has it, or 404 if it was never created. |
| EndToEnd.OtherProfileOverHttp | src/handlers/profile_handler.cpp:77-100 | GET /p, for a user allowed profile:read, answers the profile of p as the history has it, or 404. |
| EndToEnd.PrivacyOverHttp | src/handlers/privacy_handler.cpp:25-40 | GET /me/privacy, for a user allowed profile:read, answers the last successful PUT as a whole, else the defaults. |
| EndToEnd.AvatarOverHttp | src/handlers/profile_handler.cpp:139-162 | After a POST /me/avatar answered with a URL, GET /me shows that URL in the otherwise unchanged profile if the profile was created, else 404. |
| EndToEnd.PatchOverHttp | src/handlers/profile_handler.cpp:102-128 | A PATCH /me answered 200, each request allowed its own scope, is answered with, and makes GET /me show, what GET showed before, with the strings of the body under first_name, last_name, username and bio in place of the texts of these names. |
| ReadAfterWrite.AddedContactIsListed | src/handlers/contacts_handler.cpp:27-69 | After a POST /contacts answered 201, GET /contacts holds the contact_id of the body, under the user's stored id, with the alias of the body or the empty one. |
| ReadAfterWrite.RemovedContactIsGone | src/handlers/contacts_handler.cpp:71-83 | After a DELETE /contacts/p answered 204, GET /contacts does not hold p. |
| ReadAfterWrite.FavoriteIsAsWritten | src/handlers/favorites_handler.cpp:27-72 | After an answered POST or DELETE of /favorites/p, GET /favorites holds p for that user if and only if it was a POST. |
| ReadAfterWrite.ChatFlagIsShown | src/handlers/notifications_handler.cpp:55-161 | After a PUT /notifications/c answered 204, GET /notifications/c shows the flag of the body, false if it has none, for c and under the user's stored id. |
| ReadAfterWrite.PrivacyIsShown | src/handlers/privacy_handler.cpp:25-58 | After a PUT /me/privacy answered 204, GET /me/privacy shows each visibility of the body under its own key, everyone for a missing one. |
| ReadAfterWrite.ClearedAvatarIsShown | src/handlers/profile_handler.cpp:164-174 | After a DELETE /me/avatar answered 204, GET /me shows the profile with an empty URL. |
| ReadAfterWrite.CreatedProfileIsShown | src/handlers/profile_handler.cpp:37-75 | After a POST /internal/profiles answered 201, GET /me of the user named in the body answers the profile. |
| ServerProtocol.RunKeepsInv | src/server.cpp:25-109 | The protocol invariant holds in every interleaving of controller, workers and clients. |
| ServerProtocol.EveryRunIsSafe | src/server.cpp:25-109 | At most one worker owns an acceptor; a worker in accept after the flag is cleared has a connection pending, unless Stop has still to connect or its connect failed while that worker was in accept with nothing pending; at most one request completes after the flag is cleared. |
| ServerProtocol.CallsAreAnswered | src/server.cpp:25-91 | In every reachable state between calls both can be made: Stop with the flag clear returns and leaves the whole state, with the flag set it is under way; Start with the flag set changes nothing, whether or not its worker still runs. |
| ServerProtocol.StopTwice | src/server.cpp:21-23 | A Stop after one that has joined, as in the destructor, returns at once in the same state. |
| ServerProtocol.WorkerServes | src/server.cpp:47-78 | Between calls a worker at the head of its loop takes the first waiting connection, answers its request or drops it, and is back at the head with the others still waiting. |
| ServerProtocol.WorkerTakesFirst | src/server.cpp:47-78 | A worker in accept takes the first waiting connection and completes its request if it has sent one, or drops it if reading fails. |
| ServerProtocol.WorkerFails | src/server.cpp:79-82 | A worker can fail while opening, in accept and while serving a client that has sent something, and drops every connection then; an accept that reports an error is retried. |
| ServerProtocol.FailedWorkerEnds | src/server.cpp:79-82 | A worker that failed clears the flag and ends. |
| ServerProtocol.StartReplaces | src/server.cpp:25-35 | After a failure or a Stop the steps of Start put a new worker in place, with no connection left over. |
| ServerProtocol.ConnectIff | src/server.cpp:44-47 | Clients, and Stop, can connect exactly while an acceptor listens; a connect can fail at any time. |
| ServerProtocol.QueueStep | src/server.cpp:47-68 | Connections are taken in the order in which they were made: what every step does to the queue and to the connection being served. |
| ServerProtocol.AtMostOneLateRequest | src/server.cpp:47-91 | Between the call of Stop and its return at most one request is completed, counted in the steps of the run. |
| ServerProtocol.MissedMeans | src/server.cpp:96-105 | The mark of a missed connect stands for a step of the run: a failed connect while the worker was in accept with nothing pending. |
| ServerProtocol.JoinIsLast | src/server.cpp:107-109 | A Stop that joins returns only when the worker has ended and no connection, waiting or being served, is left. |
| ServerProtocol.FailureClearsOwnFlag | src/server.cpp:79-82 | A failing worker never clears the flag of its successor. |
| ServerProtocol.StopAdvances | src/server.cpp:88-109 | During Stop every step of controller or worker reduces a rank of at most ten, and no client step raises it. |
| ServerProtocol.StopIsStuckOrDue | src/server.cpp:96-109 | During Stop an ordinary step, one of the server's threads in which no call fails, is possible if and only if Stop is not stuck: joining a worker that is in accept with nothing pending, or reads from a client that says nothing. Stop's own connection is only ever dropped. |
| ServerProtocol.BecomesStuckIff | src/server.cpp:96-109 | Stop gets stuck in exactly three ways: its connect fails while the worker is in accept with nothing pending; it passes its connect, failed or not, while the worker reads from a silent client; or the worker then accepts a silent client that waits ahead. A connect that fails at any other moment does no harm. |
| ServerProtocol.StuckEndsIff | src/server.cpp:55-82 | A Stop stuck at accept moves on exactly by a client's connection or a failing accept; one stuck at a silent client exactly when that client speaks or hangs up. |
| ServerProtocol.StopIsBounded | src/server.cpp:88-109 | However clients behave, at most ten steps of controller and worker lie between the call and the end of Stop. |
| ServerProtocol.StopCanFinish | src/server.cpp:88-109 | From every state of Stop that no silent client holds and that is not stuck, at most ten ordinary steps reach its return; Stop's own connection is left by a failed read, as in the program. |
| ServerProtocol.StopFinishesIff | src/server.cpp:88-109 | In any state of Stop some run of ordinary steps reaches its return if and only if it is not stuck and the worker neither reads from a silent client nor is to accept one next. |
| ServerProtocol.StopReturnsOrSticks | src/server.cpp:88-109 | Every run of Stop, in any interleaving and with any failures, that goes on until Stop has returned or no ordinary step is left takes at most ten steps of controller and worker and ends returned, or stuck; stuck only if it was so before or got so in one of the three ways, and only by its own failed connect if no silent client is being read. |
| ServerProtocol.FailedConnectGetsStuck | src/server.cpp:96-105 | A stuck state can be reached from the start of the program by a failed connect. |
| ServerProtocol.SilentClientGetsStuck | src/server.cpp:60-68 | And by a client that connects and stays silent, whether Stop's own connect succeeds or fails. |
| ServerProtocol.StartIsNeverStuck | src/server.cpp:25-35 | Start never waits for a worker that still serves. |
| ServerProtocol.FlagMeansWorker | src/server.cpp:25-35 | As long as every thread is created, between calls the flag is set exactly while a worker runs. |
| ServerProtocol.FailedSpawn | src/server.cpp:25-35 | If creating the thread fails, the flag stays set without a worker, Start does nothing any more, and a Stop can be finished. |

## Left out

- HTTP parsing and writing, headers of responses, logging, command line, environment variables, Docker and CMake: no logic of their own.
- JSON as text: bodies are already parsed, or malformed with the parser's message; answers are records. Type errors carry a fixed message, and answers that cannot be printed because of invalid UTF-8 do not occur.
- SQL as text: each statement is modelled by its effect on the tables, with the column constraints of the schema files. A commit whose outcome is unknown to the client does not occur.
- VARCHAR columns that silently cut trailing spaces beyond their length: such texts are treated as too long.
- `PostgresTransaction`, the result cursor and the hexadecimal printing of blobs in `postgres_connection.cpp`: not used by any repository.
- Calendar conversion: a mute-until is an opaque number, and creation and update times as reported (the mappers report the current time) are not part of the answers.
- Equal creation times: the listing order of rows created in the same microsecond is left open by the program.
- Generated notification ids are numbers here, not UUIDs.
- `MinIOStorage` beyond a function from user and content type to URL; the stored images themselves.
- The unused route tree and the duplicate table in `api_routes.hpp`; `SimpleAuthChecker` is an instance of the environment's checker.
- Handler objects: one per kind; the program makes one per handler id, all without state of their own.
- The join by the thread object itself when the server is destroyed; the Stop of the destructor is one more call of Stop.
- A request that arrives in pieces: a client's connection is silent, has sent a request, or has failed; reading it, handling and answering are one step, which ends; a client that does not take its answer is not modelled.
- The moment between Stop's connect and the shutdown of that connection: both are one step.
- The limit on connections waiting to be accepted.
- The server object: its flag, thread and token are the state of a step relation, not fields of a class.
- Update in place of single rows: the connection object replaces its tables as a value, so sharing of rows is not captured.
