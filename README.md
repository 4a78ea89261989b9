# CinemaxUZ movie bot — a Dafny model of its core

The CinemaxUZ bot serves a catalog of movies through a Telegram chat. It keeps
three tables: `movies`, keyed by code with a view counter; `categories`; and
`users`. Every viewer interaction is gated by a fail-closed check that the user
is subscribed to each configured channel. Admins curate the catalog through a
text-driven state machine held in five per-user flag dictionaries.

This project models that core in Dafny:

- `text.dfy` (module `Text`) holds the Python string operations the handlers
  rely on: `str.strip()` with Python's whitespace set, `split(";")`,
  `split("_", 1)`, `startswith`, and the case-insensitive substring test
  behind `ilike '%q%'`.
- `order.dfy` (module `Order`) holds the lexicographic order of `ORDER BY` on
  text columns, and the ascending listing of a set of names.
- `catalog.dfy` (module `Catalog`) holds the tables and the store's
  functions:
  - Each statement is a pure function on a table (`Upsert`, `Remove`,
    `Bump`) and a method of the `Database` class that updates its fields in
    place.
  - The queries are pure functions with their ordering and selection stated
    in their contracts.
- `access.dfy` (module `Access`) holds `is_admin` and `is_subscribed`. The
  latter is a loop over the channels' lookups that stops at the first
  failure.
- `callbacks.dfy` (module `Callbacks`) holds the inline buttons' callback
  data and the `if`/`elif` chain of the callback-query handler, as `Route`.
- `bot.dfy` (module `Bot`) holds the rest:
  - the pending-input state machine over the five flag dictionaries;
  - the `Bot` class with those dictionaries and an output log;
  - `text_handler`, `button_handler` and `/start`.

How the outside world appears in the model:

- Everything the bot sends is appended to an output log of events. Reply
  texts are named by a `Notice` value rather than spelled out.
- The admin menu labels are kept literally, because the dispatch compares
  against them.
- What the platform answers is passed in as parameters:
  - one `Lookup` per configured channel;
  - one delivery outcome per stored user for a broadcast.

`is_admin` is modelled by the predicate `Access.IsAdmin`, which tests
membership of the id, as a string, in the allowlist. `Bot.Bot.HandleText`
states which branch that test selects.

## Model

| member | source | states |
|---|---|---|
| Catalog.Upsert | main.py:85-92 | The code is a key afterwards. Its row holds the three given fields. A new code starts with 0 views; an existing code keeps its views. Every other row is unchanged. |
| Catalog.UpsertNew | main.py:85-92 | Adding an absent code creates exactly the row `(file_id, title, category, 0)` and grows the table by one. |
| Catalog.Remove | main.py:94-96 | Exactly the given code leaves the key set; every remaining row is unchanged. |
| Catalog.Bump | main.py:139-143 | The key set is unchanged. The given code, if present, gains exactly one view; every other row is unchanged. |
| Catalog.AbsentCodeIsNoOp | main.py:94-96 | Deleting or bumping a code that is not in the table leaves the table as it was. |
| Catalog.StoredName | main.py:64 | A username is stored as given. The stored name is empty exactly when there is no username or it is empty. |
| Catalog.FindMovie | main.py:106-108 | A row is found exactly when the code is a key, and it is that code's row. |
| Catalog.RowsOf | main.py:114-120 | The whole table, one row per code, each row taken from the table, in strictly ascending code order. |
| Catalog.Insert | main.py:110-112 | Inserting a row into a sorted list keeps it sorted, and the result holds the same rows plus the new one. |
| Catalog.Sort | main.py:110-112 | The result is sorted by the `ORDER BY` key and is a permutation of the input. |
| Catalog.Filter | main.py:114-120 | A row is in the result exactly when it is in the input and the predicate accepts it. Rows listed in strictly ascending code order stay in that order, so no code appears twice. |
| Catalog.AllMovies | main.py:110-112 | Every movie exactly once (its length equals the table size, every row is listed, and no code appears twice), ordered by title. |
| Catalog.MoviesInCategory | main.py:114-116 | Every listed row is from the table and has the category. Every movie of the category is listed, and no code appears twice. |
| Catalog.SearchTitles | main.py:118-120 | Every listed row is from the table and its title contains the query, ignoring case. Every such movie is listed, and no code appears twice. |
| Catalog.TopMovies | main.py:135-137 | At most `limit` rows (fewer only when the table is smaller), from the table, no code twice, by views descending. No movie left out has more views than a listed one. |
| Catalog.SameRows | main.py:110-112 | Two orderings of the same rows of a table have the same length and members, and a reordering of rows with distinct codes has distinct codes. |
| Catalog.PrefixDominates | main.py:135-137 | In a by-views listing, a row beyond the first `n` has no more views than any of the first `n`. |
| Catalog.Database.constructor | main.py:29-48 | The three tables start empty. |
| Catalog.Database.AddMovie | main.py:85-92 | The movies table becomes `Upsert` of the old one; the categories and users tables are unchanged. |
| Catalog.Database.DeleteMovie | main.py:94-96 | The movies table becomes `Remove` of the old one; the other tables are unchanged. |
| Catalog.Database.AddCategory | main.py:98-100 | The name is added. Adding a name that is already present changes nothing (`ON CONFLICT DO NOTHING`). Movies and users are unchanged. |
| Catalog.Database.DeleteCategory | main.py:102-104 | The name is removed with no cascade: every movie keeps its category. |
| Catalog.Database.UpdateMovieViews | main.py:139-143 | The movies table becomes `Bump` of the old one; the other tables are unchanged. |
| Catalog.Database.AddUser | main.py:61-70 | The user's row is inserted or overwritten with `username or ""`; the movies and categories tables are unchanged. |
| Order.SortedList | main.py:122-125 | Each category name exactly once, in strictly ascending order. |
| Order.StrLeTotal | main.py:123 | Any two names are comparable in the `ORDER BY` order. |
| Order.StrLeTransitive | main.py:123 | The `ORDER BY` order is transitive. |
| Order.StrLeAntisymmetric | main.py:123 | Two names that sort before or equal to each other are the same name. |
| Order.HasLeast | main.py:122-125 | A non-empty set of names has a least member. |
| Access.IsSubscribed | main.py:75-83 | The user is subscribed exactly when every channel's lookup succeeds with status member, administrator or creator. Lookups stop at the first failure: the last one asked is the first that failed, and every earlier one admitted the user. |
| Text.Strip | main.py:237 | The result is the slice of the input with only whitespace (Python's `isspace` set) before and after it, and it has no whitespace at either end. Text without surrounding whitespace comes back unchanged. |
| Text.StripIdempotent | main.py:237 | The text the handlers compare is already stripped once, and stripping it again would change nothing. |
| Text.Split | main.py:245 | There is one more piece than there are separators. No piece holds the separator. Joining the pieces with the separator gives the text back. |
| Text.SplitJoin | main.py:245 | Splitting undoes joining pieces that hold no separator. |
| Text.SplitOnce | main.py:213 | Without the separator the result is the whole text. Otherwise it is the separator-free text before the first separator and the text after it. |
| Text.SplitOnceAfter | main.py:221 | Everything after the first separator comes back intact, further separators included. |
| Callbacks.Route | main.py:198-231 | The `if`/`elif` chain on callback data. A category or code it extracts is exactly what follows the `category_` or `movie_` prefix. |
| Callbacks.RouteMovieData | main.py:201 | The data of a movie button routes back to opening that very code, underscores in the code included. |
| Callbacks.RouteCategoryData | main.py:208 | The data of a category button routes back to that very category, underscores in the name included. |
| Callbacks.MovieButtons | main.py:201 | One button per row, in order, labelled with its title, that opens its movie. |
| Callbacks.CategoryButtons | main.py:208 | One button per name, in order, that opens that category. |
| Bot.MainMenu | main.py:161-166 | The four `/start` buttons route to the movie list, the category list, the search hint and the info text. |
| Bot.ExclusiveFlags | main.py:244-273 | When at most one flag is set per user, a flag is set exactly when its flow is the pending one, so the order in which the handler tests the flags does not matter. |
| Bot.ParseMovieAdd | main.py:245-252 | Fewer than three `;` gives the format warning. More than three `;` makes the unpack raise. Otherwise four fields come back, none with whitespace at either end; `Bot.ParseFourFields` says which four. |
| Bot.ParseFourFields | main.py:245-248 | Four `;`-free fields joined with `;` parse back to those four fields, stripped. |
| Bot.PayloadStored | main.py:244-250 | A payload that parses stores its four fields and ends the add-movie flow. |
| Bot.AddMovieFlow | main.py:244-250 | The add-movie label makes the admin await a payload. Four fields then store the movie under the stripped code, with 0 views when the code is new, and return the admin to idle. |
| Bot.FlagOthers | main.py:249 | Setting or clearing one user's flag leaves each of every other user's five flags, their number of set flags and their pending flow as they were. |
| Bot.RaiseFlag | main.py:284-313 | An idle admin choosing a label gets exactly that flow pending, still with at most one flag set. |
| Bot.ClearOwn | main.py:249 | Clearing the pending flag of a user with at most one flag set leaves them with none. |
| Bot.ClearFlag | main.py:255-274 | Clearing the pending flag makes the admin idle and keeps at most one flag per user. |
| Bot.PendingIn | main.py:244-273 | The flow the handler acts on. The user is idle exactly when none of their five flags is set; otherwise the flag of the chosen flow is set. |
| Bot.LabelTarget | main.py:284-313 | Exactly the five labels of the input flows start a flow; any other text, the top-list and statistics labels included, starts none. |
| Bot.NextPending | main.py:244-313 | An idle admin's label starts its flow. A pending flow never turns into another one, and only an add-movie payload that does not parse keeps it open. |
| Bot.NextFlags | main.py:243-314 | The flag dictionaries after an admin text. No other user's pending flow changes. |
| Bot.NextFlagsStep | main.py:243-314 | Every admin text keeps at most one flag per user, and moves the sender's pending flow exactly as `Bot.NextPending` says. |
| Bot.AdminMovies | main.py:244-259 | Only the add-movie and delete-movie flows change the movies table, and admin text never changes a view counter. |
| Bot.AdminCategories | main.py:261-271 | Only the two category flows change the categories table, and no name but the text sent. |
| Bot.MenuReplies | main.py:284-313 | At most one reply, and it is a text. There is none exactly when the text is none of the seven menu labels. |
| Bot.AdminReplies | main.py:244-313 | At most one reply, except that a broadcast makes one attempt per stored user and then confirms. The bot stays silent only on idle text that is no label and on an add-movie payload with too many fields. |
| Bot.ViewerReplies | main.py:316-327 | A viewer's text always gets a reply, and every reply is a video or the "not found" text. |
| Bot.CallbackReplies | main.py:198-231 | Each button press gets one reply after the answer, except data that no branch matches, which gets none. |
| Access.IsAdmin | main.py:72-73 | The user is an admin exactly when their id, as a string, is on the allowlist (no contract of its own). |
| Bot.Deliveries | main.py:276-280 | One delivery attempt per recipient, in order, with that recipient's outcome. |
| Bot.Recipients | main.py:275 | Each stored user exactly once. |
| Bot.Videos | main.py:324-325 | One video per result row, in order, with its file id and its title as caption. |
| Bot.SendAll | main.py:276-280 | The broadcast loop makes exactly the attempts `Deliveries` lists: a failed send is skipped and the loop goes on. |
| Bot.SendVideos | main.py:324-325 | The search-result loop sends exactly the videos `Videos` lists. |
| Bot.AdminTextServesNoVideo | main.py:243-314 | Admin text is never taken as a code or a search: it sends no video and changes no view counter. |
| Bot.ViewerVideosMatchQuery | main.py:322-325 | For a viewer's text that is no code, every video sent has a title containing the text, ignoring case. |
| Bot.ViewerNotFoundIffNoMatch | main.py:316-327 | "Not found" is the reply exactly when the text is no code and no title contains it. |
| Bot.MovieButtonOpensItsMovie | main.py:198-225 | Pressing a button from the movie list sends that movie's video and counts one view for it. |
| Bot.Bot.constructor | main.py:146-150 | Empty tables, empty flag dictionaries, nothing sent; at most one flag per user holds. |
| Bot.Bot.SetFlag | main.py:249 | `d[user] = b` on the chosen dictionary; nothing else changes. |
| Bot.Bot.HandleText | main.py:235-327 | Not subscribed: "subscribe first" is sent and nothing else changes. An admin: the admin branch, below. Anyone else: the viewer branch, below. No user's pending flow but the sender's changes. |
| Bot.Bot.HandleAdminText | main.py:243-314 | Tables, flags and replies become exactly what the pending flow (or, when idle, the menu label) prescribes. At most one flag per user holds afterwards. It raises exactly on an add-movie payload with more than four fields. |
| Bot.Bot.HandlePayload | main.py:244-282 | A pending delete or category change applies to the text and clears the flag. A pending broadcast makes one attempt per stored user, then confirms. |
| Bot.Bot.HandleMovieAdd | main.py:244-253 | Too few fields: the warning, with the flag kept. Too many: raises with nothing changed. Four: the movie is stored, the flag cleared and the title confirmed. |
| Bot.Bot.HandleMenu | main.py:284-313 | A menu label sets its flag and prompts for input. "Top" lists `get_top_movies(10)`. "Statistics" reports the numbers of users, movies and categories. Any other text does nothing. |
| Bot.Bot.ServeViewer | main.py:316-327 | An exact code match sends that movie and counts one view. Otherwise every title match is sent, or "not found", and the table is unchanged. |
| Bot.Bot.HandleCallback | main.py:188-231 | The query is always answered. When not subscribed only "subscribe first" follows; otherwise the routed action's replies. Only an opened movie changes the table, by one view. |
| Bot.Bot.Perform | main.py:198-231 | Each routed action sends its list, video or text. Only opening a movie that exists changes the table, by one view. |
| Bot.Bot.HandleStart | main.py:154-170 | The user is always recorded. A subscribed user then gets the welcome menu; anyone else the "join the channel" text. |

## Left out

- Telegram and web transport: the webhook endpoint, the application's lifecycle and the keyboard rendering are not modelled. Replies are log events, and the reply texts are abstract notices.
- The database engine: each statement is modelled as an atomic update of in-memory tables. Connection errors, which the source lets propagate, are not modelled.
- Result order where the SQL gives none (`get_movies_by_category`, `search_movies`, `users.select()`) is modelled as ascending code or id order. Ties under `ORDER BY title` or `ORDER BY views DESC` are broken the same way. The database may return another order.
- Catalog.SearchTitles: `ilike` is modelled with ASCII-only case folding, and `%` or `_` in the query are taken literally rather than as wildcards.
- Order.StrLe: text is ordered by character code; database collations are not modelled.
- The `last_seen` timestamp of `add_user` is not modelled, because it comes from the clock.
- Configuration: `ADMINS` and `CHANNELS` are constructor parameters. An empty `CHANNELS` variable yields one empty channel name, whose lookup fails like any other. Environment loading is not modelled.
- Access.IsSubscribed: the `channel.strip()` and the `get_chat_member` call are folded into the given lookup outcomes.
- Bot.SendAll: a failed `int(user_id)` conversion and a failed send are both modelled as an undelivered attempt; the model does not say which.
- The text of the top-movies and statistics replies is not built. The model carries the listed rows and the three counts instead.
- The `admin` command (main.py:172-184), which only shows the admin keyboard, and the `get_file_id` video handler are not part of this model.
- The `category` default `"Yangi"` of `add_movie` and of the column: every caller passes a category, so the default is never used.
- Concurrency: handlers run one update at a time in the model. Interleavings of concurrent updates over the shared flag dictionaries are not modelled.
- Telegram's 64-byte limit on callback data is not modelled, so a long code or category name is assumed to round-trip.
- Catalog.Bump and Catalog.Database.UpdateMovieViews: view counts are unbounded in the model. The `views` column (main.py:35) is a 32-bit `integer` on PostgreSQL, so `views + 1` (main.py:141) at 2147483647 raises an out-of-range error before the video is sent (main.py:318-319, 224-225). That overflow error is not modelled.
- Catalog.Database.AddMovie, Catalog.Database.AddCategory, Catalog.Database.AddUser and Bot.Bot.HandleStart model the statements' evident intent, PostgreSQL's `INSERT … ON CONFLICT DO UPDATE` / `DO NOTHING`. As written, main.py:11-12 builds the inserts with the generic `Table.insert()`, which has no `on_conflict_do_update` or `on_conflict_do_nothing` (only the PostgreSQL dialect's insert has them), so these calls would raise `AttributeError`. The model does not reproduce that failure.
- The add-movie flow is documented with only the "fewer than four fields" error; the code also raises `ValueError` at the four-way unpack when a payload has more than four fields; that is what the model does (`Raised`, with nothing changed and the flag kept).
