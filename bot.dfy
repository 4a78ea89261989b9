/** The bot's handlers: the admin "pending input" state machine kept in
    five per-user flag dictionaries, the viewer's code lookup and title
    search, the callback-query handler and `/start`.  Everything the bot
    sends goes to an output log of events; channel lookups and broadcast
    delivery outcomes come in as parameters. */
module Bot {
  import opened Wrappers
  import opened Text
  import opened Order
  import opened Catalog
  import opened Access
  import opened Callbacks

  // ---------------------------------------------------------------------
  // Admin reply-keyboard labels, matched against the stripped text

  const AddMovieLabel: string := "\U{2795} Kino qo\U{2018}shish"
  const DeleteMovieLabel: string := "\U{274c} Kino o\U{2018}chirish"
  const AddCategoryLabel: string := "\U{1f5c2} Kategoriya qo\U{2018}shish"
  const DeleteCategoryLabel: string := "\U{1f5d1} Kategoriya o\U{2018}chirish"
  const TopMoviesLabel: string := "\U{1f4e5} Top kinolar"
  const StatisticsLabel: string := "\U{1f4ca} Statistika"
  const BroadcastLabel: string := "\U{1f4e4} Xabar yuborish"

  // ---------------------------------------------------------------------
  // What the bot sends

  /** The fixed reply texts, and the data the variable ones carry. */
  datatype Notice =
    | SubscribeFirst                   // text and button handlers: not subscribed
    | JoinChannelFirst                 // /start: not subscribed
    | Welcome                          // /start: the main menu
    | FormatPrompt                     // the add-movie label was chosen
    | FormatWarning                    // the add-movie payload had too few fields
    | MovieAdded(title: string)
    | AskMovieCode
    | MovieDeleted(code: string)
    | AskCategoryName
    | CategoryAdded(name: string)
    | AskCategoryToDelete
    | CategoryDeleted(name: string)
    | AskBroadcastText
    | BroadcastSent
    | TopList(rows: seq<Row>)
    | Stats(users: nat, movies: nat, categories: nat)
    | MovieNotFound
    | MoviesHeading
    | NoMovies
    | CategoriesHeading
    | NoCategories
    | CategoryHeading(category: string)
    | EmptyCategory
    | SearchHint
    | About

  datatype Event =
    | Say(notice: Notice)                                // reply_text
    | Menu(heading: Notice, buttons: seq<Button>)        // reply_text with an inline keyboard
    | Video(fileId: string, caption: string)             // reply_video
    | Delivery(chat: string, text: string, delivered: bool)  // one broadcast send_message attempt
    | CallbackAnswered                                   // query.answer()

  /** How a text update ends: normally, or with the `ValueError` raised by
      the four-way unpack of an add-movie payload with too many fields. */
  datatype Outcome = Handled | Raised

  /** The buttons of the `/start` menu. */
  function MainMenu(): (r: seq<Button>)
    ensures |r| == 4
    ensures Route(r[0].data) == ListMovies && Route(r[1].data) == ListCategories
    ensures Route(r[2].data) == PromptSearch && Route(r[3].data) == ShowInfo
  {
    [ Button("\U{1f3ac} Kinolar", "movies"),
      Button("\U{1f5c2} Kategoriyalar", "categories"),
      Button("\U{1f50e} Qidiruv", "search"),
      Button("\U{2139}\U{fe0f} Ma'lumot", "info") ]
  }

  // ---------------------------------------------------------------------
  // The pending-input state

  /** Which follow-up text an admin's next message is taken as. */
  datatype Pending =
    | Idle
    | AwaitingMovieAdd
    | AwaitingMovieDelete
    | AwaitingCategoryAdd
    | AwaitingCategoryDelete
    | AwaitingBroadcast

  /** The five flag dictionaries `adding_movie`, `deleting_movie`,
      `adding_category`, `deleting_category` and `broadcasting`. */
  datatype Flags = Flags(
    addingMovie: map<string, bool>,
    deletingMovie: map<string, bool>,
    addingCategory: map<string, bool>,
    deletingCategory: map<string, bool>,
    broadcasting: map<string, bool>)

  /** Python's truth value of `d.get(u)`. */
  predicate IsSet(d: map<string, bool>, u: string) {
    u in d && d[u]
  }

  /** The dictionary behind each pending kind. */
  function Dict(f: Flags, p: Pending): map<string, bool> {
    match p
    case Idle => map[]
    case AwaitingMovieAdd => f.addingMovie
    case AwaitingMovieDelete => f.deletingMovie
    case AwaitingCategoryAdd => f.addingCategory
    case AwaitingCategoryDelete => f.deletingCategory
    case AwaitingBroadcast => f.broadcasting
  }

  /** The pending kind the text handler acts on: the first set flag in the
      order the handler tests them; the user is idle exactly when none of
      their five flags is set. */
  function PendingIn(f: Flags, u: string): (p: Pending)
    ensures p == Idle <==> SetCount(f, u) == 0
    ensures p != Idle ==> IsSet(Dict(f, p), u)
  {
    if IsSet(f.addingMovie, u) then AwaitingMovieAdd
    else if IsSet(f.deletingMovie, u) then AwaitingMovieDelete
    else if IsSet(f.addingCategory, u) then AwaitingCategoryAdd
    else if IsSet(f.deletingCategory, u) then AwaitingCategoryDelete
    else if IsSet(f.broadcasting, u) then AwaitingBroadcast
    else Idle
  }

  /** How many of `u`'s five flags are set. */
  function SetCount(f: Flags, u: string): nat {
    (if IsSet(f.addingMovie, u) then 1 else 0)
    + (if IsSet(f.deletingMovie, u) then 1 else 0)
    + (if IsSet(f.addingCategory, u) then 1 else 0)
    + (if IsSet(f.deletingCategory, u) then 1 else 0)
    + (if IsSet(f.broadcasting, u) then 1 else 0)
  }

  /** At most one flag is set for every user. */
  ghost predicate Exclusive(f: Flags) {
    forall u :: SetCount(f, u) <= 1
  }

  /** Under exclusivity a user's flag of kind `p` is set exactly when `p` is
      the pending kind, so the order in which the handler tests the flags
      does not matter. */
  lemma ExclusiveFlags(f: Flags, u: string)
    requires Exclusive(f)
    ensures forall p | p != Idle :: IsSet(Dict(f, p), u) <==> PendingIn(f, u) == p
  {
    assert SetCount(f, u) <= 1;
  }

  /** `d[u] = b` on the dictionary of kind `p` (nothing for `Idle`). */
  function Flag(f: Flags, p: Pending, u: string, b: bool): Flags {
    match p
    case Idle => f
    case AwaitingMovieAdd => f.(addingMovie := f.addingMovie[u := b])
    case AwaitingMovieDelete => f.(deletingMovie := f.deletingMovie[u := b])
    case AwaitingCategoryAdd => f.(addingCategory := f.addingCategory[u := b])
    case AwaitingCategoryDelete => f.(deletingCategory := f.deletingCategory[u := b])
    case AwaitingBroadcast => f.(broadcasting := f.broadcasting[u := b])
  }

  /** The pending kind an admin menu label starts: exactly the five labels
      of the input flows start one. */
  function LabelTarget(text: string): (r: Pending)
    ensures r == Idle <==> text !in {AddMovieLabel, DeleteMovieLabel, AddCategoryLabel, DeleteCategoryLabel, BroadcastLabel}
  {
    if text == AddMovieLabel then AwaitingMovieAdd
    else if text == DeleteMovieLabel then AwaitingMovieDelete
    else if text == AddCategoryLabel then AwaitingCategoryAdd
    else if text == DeleteCategoryLabel then AwaitingCategoryDelete
    else if text == BroadcastLabel then AwaitingBroadcast
    else Idle
  }

  /** The parsed add-movie payload. */
  datatype MovieInput =
    | Fields(code: string, fileId: string, title: string, category: string)
    | TooFewParts
    | TooManyParts

  /** `text.split(";")` followed by the length test and the four-way
      unpack of the stripped parts: fewer than three `;` is too few, more
      than three too many, exactly three gives the four fields. */
  function ParseMovieAdd(text: string): (r: MovieInput)
    ensures r.TooFewParts? <==> Count(text, ';') < 3
    ensures r.TooManyParts? <==> Count(text, ';') > 3
    ensures r.Fields? ==> Trimmed(r.code) && Trimmed(r.fileId) && Trimmed(r.title) && Trimmed(r.category)
  {
    var parts := Split(text, ';');
    if |parts| < 4 then TooFewParts
    else if |parts| > 4 then TooManyParts
    else Fields(Strip(parts[0]), Strip(parts[1]), Strip(parts[2]), Strip(parts[3]))
  }

  /** Four `;`-free fields joined by `;` parse back to the four fields,
      each stripped. */
  lemma ParseFourFields(a: string, b: string, c: string, d: string)
    requires ';' !in a && ';' !in b && ';' !in c && ';' !in d
    ensures ParseMovieAdd(a + ";" + b + ";" + c + ";" + d) == Fields(Strip(a), Strip(b), Strip(c), Strip(d))
  {
    var parts := [a, b, c, d];
    assert parts[1..] == [b, c, d] && parts[1..][1..] == [c, d] && parts[1..][1..][1..] == [d];
    assert Join([d], ';') == d;
    assert Join([c, d], ';') == c + ";" + d;
    assert Join([b, c, d], ';') == b + ";" + c + ";" + d;
    assert Join(parts, ';') == a + ";" + b + ";" + c + ";" + d;
    SplitJoin(parts, ';');
  }

  /** The admin's pending kind after their next text: an idle admin's
      label starts its flow; a pending flow never turns into another one,
      and only an add-movie payload that does not parse keeps it open. */
  function NextPending(p: Pending, text: string): (r: Pending)
    ensures p == Idle ==> r == LabelTarget(text)
    ensures p != Idle ==> r == Idle || r == p
    ensures p != Idle && r == p ==> p == AwaitingMovieAdd && !ParseMovieAdd(text).Fields?
  {
    match p
    case Idle => LabelTarget(text)
    case AwaitingMovieAdd => if ParseMovieAdd(text).Fields? then Idle else AwaitingMovieAdd
    case _ => Idle
  }

  /** The flag dictionaries after admin `u` sends `text`: an idle admin's
      menu label sets one flag; a payload clears the flag it answered,
      except an add-movie payload that did not parse.  No other user's
      pending kind changes. */
  function NextFlags(f: Flags, u: string, text: string): (r: Flags)
    ensures forall v | v != u :: PendingIn(r, v) == PendingIn(f, v)
  {
    var p := PendingIn(f, u);
    if p == Idle then
      FlagOthersAll(f, LabelTarget(text), u, true);
      Flag(f, LabelTarget(text), u, true)
    else if NextPending(p, text) == Idle then
      FlagOthersAll(f, p, u, false);
      Flag(f, p, u, false)
    else f
  }

  /** Setting or clearing one of `u`'s flags leaves every other user's flags
      as they were. */
  lemma FlagOthers(f: Flags, p: Pending, u: string, b: bool, v: string)
    requires v != u
    ensures forall q | q != Idle :: IsSet(Dict(Flag(f, p, u, b), q), v) == IsSet(Dict(f, q), v)
    ensures SetCount(Flag(f, p, u, b), v) == SetCount(f, v)
    ensures PendingIn(Flag(f, p, u, b), v) == PendingIn(f, v)
  {
    OtherFlags(f, p, u, b, v);
    SameFlags(f, Flag(f, p, u, b), v);
  }

  /** A user whose five flags agree in `f` and `g` has the same count of
      set flags and the same pending kind in both. */
  lemma SameFlags(f: Flags, g: Flags, v: string)
    requires IsSet(g.addingMovie, v) == IsSet(f.addingMovie, v)
    requires IsSet(g.deletingMovie, v) == IsSet(f.deletingMovie, v)
    requires IsSet(g.addingCategory, v) == IsSet(f.addingCategory, v)
    requires IsSet(g.deletingCategory, v) == IsSet(f.deletingCategory, v)
    requires IsSet(g.broadcasting, v) == IsSet(f.broadcasting, v)
    ensures forall q | q != Idle :: IsSet(Dict(g, q), v) == IsSet(Dict(f, q), v)
    ensures SetCount(g, v) == SetCount(f, v)
    ensures PendingIn(g, v) == PendingIn(f, v)
  {
    forall q | q != Idle ensures IsSet(Dict(g, q), v) == IsSet(Dict(f, q), v) {
      match q
      case AwaitingMovieAdd =>
      case AwaitingMovieDelete =>
      case AwaitingCategoryAdd =>
      case AwaitingCategoryDelete =>
      case AwaitingBroadcast =>
    }
  }

  /** The five dictionaries, one at a time. */
  lemma OtherFlags(f: Flags, p: Pending, u: string, b: bool, v: string)
    requires v != u
    ensures IsSet(Flag(f, p, u, b).addingMovie, v) == IsSet(f.addingMovie, v)
    ensures IsSet(Flag(f, p, u, b).deletingMovie, v) == IsSet(f.deletingMovie, v)
    ensures IsSet(Flag(f, p, u, b).addingCategory, v) == IsSet(f.addingCategory, v)
    ensures IsSet(Flag(f, p, u, b).deletingCategory, v) == IsSet(f.deletingCategory, v)
    ensures IsSet(Flag(f, p, u, b).broadcasting, v) == IsSet(f.broadcasting, v)
  {
  }

  /** `FlagOthers` for every other user at once. */
  lemma FlagOthersAll(f: Flags, p: Pending, u: string, b: bool)
    ensures forall v | v != u :: PendingIn(Flag(f, p, u, b), v) == PendingIn(f, v)
  {
    forall v | v != u ensures PendingIn(Flag(f, p, u, b), v) == PendingIn(f, v) {
      FlagOthers(f, p, u, b, v);
    }
  }

  /** An idle user's flag of kind `p` raised: `p` becomes pending, still
      one flag at most. */
  lemma RaiseFlag(f: Flags, p: Pending, u: string)
    requires Exclusive(f) && PendingIn(f, u) == Idle
    ensures Exclusive(Flag(f, p, u, true)) && PendingIn(Flag(f, p, u, true), u) == p
  {
    var g := Flag(f, p, u, true);
    assert SetCount(f, u) == 0;
    forall v ensures SetCount(g, v) <= 1 {
      if v != u {
        FlagOthers(f, p, u, true, v);
        assert SetCount(f, v) <= 1;
      }
    }
  }

  /** Clearing the pending flag of a user with at most one flag set leaves
      them with none. */
  lemma ClearOwn(f: Flags, u: string)
    requires SetCount(f, u) <= 1
    ensures SetCount(Flag(f, PendingIn(f, u), u, false), u) == 0
  {
  }

  /** The pending flag cleared: the user is idle again. */
  lemma ClearFlag(f: Flags, u: string)
    requires Exclusive(f)
    ensures Exclusive(Flag(f, PendingIn(f, u), u, false)) && PendingIn(Flag(f, PendingIn(f, u), u, false), u) == Idle
  {
    var p := PendingIn(f, u);
    var g := Flag(f, p, u, false);
    assert SetCount(f, u) <= 1;
    ClearOwn(f, u);
    forall v ensures SetCount(g, v) <= 1 {
      if v != u {
        FlagOthers(f, p, u, false, v);
        assert SetCount(f, v) <= 1;
      }
    }
  }

  /** The state machine keeps at most one flag per user, and an admin's
      text moves their pending kind exactly as `NextPending` says. */
  lemma NextFlagsStep(f: Flags, u: string, text: string)
    requires Exclusive(f)
    ensures Exclusive(NextFlags(f, u, text))
    ensures PendingIn(NextFlags(f, u, text), u) == NextPending(PendingIn(f, u), text)
  {
    var p := PendingIn(f, u);
    if p == Idle {
      RaiseFlag(f, LabelTarget(text), u);
    } else if NextPending(p, text) == Idle {
      ClearFlag(f, u);
    }
  }

  /** A payload that parses stores its four fields and ends the flow. */
  lemma PayloadStored(m: Movies, payload: string, code: string, fileId: string, title: string, category: string)
    requires ParseMovieAdd(payload) == Fields(code, fileId, title, category)
    ensures NextPending(AwaitingMovieAdd, payload) == Idle
    ensures AdminMovies(AwaitingMovieAdd, payload, m) == Upsert(m, code, fileId, title, category)
  {
  }

  /** The add-movie flow end to end: the menu label makes the admin await
      a payload; four `;`-separated fields then store the movie under the
      stripped code, with no views if the code is new, and make the admin
      idle again. */
  lemma AddMovieFlow(m: Movies, a: string, b: string, c: string, d: string)
    requires ';' !in a && ';' !in b && ';' !in c && ';' !in d
    ensures NextPending(Idle, AddMovieLabel) == AwaitingMovieAdd
    ensures var payload := a + ";" + b + ";" + c + ";" + d;
            && NextPending(AwaitingMovieAdd, payload) == Idle
            && AdminMovies(AwaitingMovieAdd, payload, m) == Upsert(m, Strip(a), Strip(b), Strip(c), Strip(d))
            && (Strip(a) !in m ==> AdminMovies(AwaitingMovieAdd, payload, m)[Strip(a)] == Movie(Strip(b), Strip(c), Strip(d), 0))
  {
    ParseFourFields(a, b, c, d);
    PayloadStored(m, a + ";" + b + ";" + c + ";" + d, Strip(a), Strip(b), Strip(c), Strip(d));
  }

  // ---------------------------------------------------------------------
  // What each branch of the handlers does, as functions of the old state

  /** The movies table after admin text with pending kind `p`: only the
      two movie flows touch it, and admin text never changes a view
      counter. */
  function AdminMovies(p: Pending, text: string, m: Movies): (r: Movies)
    ensures p != AwaitingMovieAdd && p != AwaitingMovieDelete ==> r == m
    ensures forall c | c in m && c in r :: r[c].views == m[c].views
  {
    match p
    case AwaitingMovieAdd =>
      (match ParseMovieAdd(text)
       case Fields(code, fileId, title, category) => Upsert(m, code, fileId, title, category)
       case _ => m)
    case AwaitingMovieDelete => Remove(m, text)
    case _ => m
  }

  /** The categories table after admin text with pending kind `p`: only
      the two category flows touch it, and only the name sent. */
  function AdminCategories(p: Pending, text: string, cats: set<string>): (r: set<string>)
    ensures p != AwaitingCategoryAdd && p != AwaitingCategoryDelete ==> r == cats
    ensures r - {text} == cats - {text}
  {
    match p
    case AwaitingCategoryAdd => cats + {text}
    case AwaitingCategoryDelete => cats - {text}
    case _ => cats
  }

  /** One delivery attempt per recipient, in order. */
  function Deliveries(ids: seq<string>, text: string, outcomes: seq<bool>): (r: seq<Event>)
    requires |outcomes| == |ids|
    ensures |r| == |ids|
    ensures forall i | 0 <= i < |r| :: r[i] == Delivery(ids[i], text, outcomes[i])
  {
    seq(|ids|, i requires 0 <= i < |ids| => Delivery(ids[i], text, outcomes[i]))
  }

  lemma DeliveriesStep(ids: seq<string>, text: string, outcomes: seq<bool>, i: nat)
    requires |outcomes| == |ids| && i < |ids|
    ensures Deliveries(ids[..i + 1], text, outcomes[..i + 1])
            == Deliveries(ids[..i], text, outcomes[..i]) + [Delivery(ids[i], text, outcomes[i])]
  {
  }

  /** The `users` table in the order the broadcast walks it. */
  function Recipients(users: map<string, string>): (r: seq<string>)
    ensures |r| == |users|
    ensures forall u :: u in r <==> u in users
    ensures forall i, j | 0 <= i < j < |r| :: r[i] != r[j]
  {
    assert |users.Keys| == |users|;
    SortedList(users.Keys)
  }

  /** The reply to an idle admin's text: a prompt for a label that starts a
      flow, the top list, the statistics, or nothing. */
  function MenuReplies(text: string, m: Movies, cats: set<string>, users: map<string, string>): (r: seq<Event>)
    ensures |r| <= 1
    ensures r == [] <==> LabelTarget(text) == Idle && text != TopMoviesLabel && text != StatisticsLabel
    ensures forall i | 0 <= i < |r| :: r[i].Say?
  {
    if text == AddMovieLabel then [Say(FormatPrompt)]
    else if text == DeleteMovieLabel then [Say(AskMovieCode)]
    else if text == AddCategoryLabel then [Say(AskCategoryName)]
    else if text == DeleteCategoryLabel then [Say(AskCategoryToDelete)]
    else if text == TopMoviesLabel then [Say(TopList(TopMovies(m, DefaultTopLimit)))]
    else if text == StatisticsLabel then [Say(Stats(|users|, |m|, |SortedList(cats)|))]
    else if text == BroadcastLabel then [Say(AskBroadcastText)]
    else []
  }

  /** What the bot sends for admin text with pending kind `p`: one reply
      at most, except a broadcast, which makes one delivery attempt per
      user and then confirms; the bot stays silent only on idle text that
      is no menu label and on an add-movie payload with too many fields. */
  function AdminReplies(p: Pending, text: string, m: Movies, cats: set<string>,
                        users: map<string, string>, outcomes: seq<bool>): (r: seq<Event>)
    requires |outcomes| == |users|
    ensures p != AwaitingBroadcast ==> |r| <= 1
    ensures p == AwaitingBroadcast ==> |r| == |users| + 1 && r[|users|] == Say(BroadcastSent)
    ensures r == [] <==> (p == Idle && MenuReplies(text, m, cats, users) == [])
                         || (p == AwaitingMovieAdd && ParseMovieAdd(text).TooManyParts?)
  {
    match p
    case Idle => MenuReplies(text, m, cats, users)
    case AwaitingMovieAdd =>
      (match ParseMovieAdd(text)
       case Fields(_, _, title, _) => [Say(MovieAdded(title))]
       case TooFewParts => [Say(FormatWarning)]
       case TooManyParts => [])
    case AwaitingMovieDelete => [Say(MovieDeleted(text))]
    case AwaitingCategoryAdd => [Say(CategoryAdded(text))]
    case AwaitingCategoryDelete => [Say(CategoryDeleted(text))]
    case AwaitingBroadcast => Deliveries(Recipients(users), text, outcomes) + [Say(BroadcastSent)]
  }

  /** Broadcast attempts followed by a text hold no video. */
  lemma NoVideoAppended(attempts: seq<Event>, last: Event)
    requires forall i | 0 <= i < |attempts| :: attempts[i].Delivery?
    requires !last.Video?
    ensures forall i | 0 <= i < |attempts + [last]| :: !(attempts + [last])[i].Video?
  {
  }

  /** One video per row. */
  function Videos(rows: seq<Row>): (r: seq<Event>)
    ensures |r| == |rows|
    ensures forall i | 0 <= i < |r| :: r[i] == Video(rows[i].movie.fileId, rows[i].movie.title)
  {
    seq(|rows|, i requires 0 <= i < |rows| => Video(rows[i].movie.fileId, rows[i].movie.title))
  }

  lemma VideosStep(rows: seq<Row>, i: nat)
    requires i < |rows|
    ensures Videos(rows[..i + 1]) == Videos(rows[..i]) + [Video(rows[i].movie.fileId, rows[i].movie.title)]
  {
  }

  /** What the bot sends for a viewer's text: the movie with that exact
      code, else every title match, else "not found"; always at least one
      reply, and nothing but videos or that notice. */
  function ViewerReplies(text: string, m: Movies): (r: seq<Event>)
    ensures r != []
    ensures forall i | 0 <= i < |r| :: r[i].Video? || r[i] == Say(MovieNotFound)
  {
    if text in m then [Video(m[text].fileId, m[text].title)]
    else
      var found := SearchTitles(m, text);
      if found == [] then [Say(MovieNotFound)] else Videos(found)
  }

  /** What the bot sends for a button press, after answering it: one
      reply, except for data no branch matches, which gets none. */
  function CallbackReplies(a: Action, m: Movies, cats: set<string>): (r: seq<Event>)
    ensures |r| <= 1
    ensures r == [] <==> a == NoAction
  {
    match a
    case ListMovies =>
      var rows := AllMovies(m);
      if rows == [] then [Say(NoMovies)] else [Menu(MoviesHeading, MovieButtons(rows))]
    case ListCategories =>
      var names := SortedList(cats);
      if names == [] then [Say(NoCategories)] else [Menu(CategoriesHeading, CategoryButtons(names))]
    case ShowCategory(name) =>
      var rows := MoviesInCategory(m, name);
      if rows == [] then [Say(EmptyCategory)] else [Menu(CategoryHeading(name), MovieButtons(rows))]
    case OpenMovie(code) =>
      if code in m then [Video(m[code].fileId, m[code].title)] else [Say(MovieNotFound)]
    case PromptSearch => [Say(SearchHint)]
    case ShowInfo => [Say(About)]
    case NoAction => []
  }

  /** The attempts of the broadcast loop over `ids`, in order. */
  method SendAll(ids: seq<string>, text: string, outcomes: seq<bool>) returns (attempts: seq<Event>)
    requires |outcomes| == |ids|
    ensures attempts == Deliveries(ids, text, outcomes)
  {
    attempts := [];
    for i := 0 to |ids|
      invariant attempts == Deliveries(ids[..i], text, outcomes[..i])
    {
      DeliveriesStep(ids, text, outcomes, i);
      attempts := attempts + [Delivery(ids[i], text, outcomes[i])];
    }
    assert ids[..|ids|] == ids && outcomes[..|outcomes|] == outcomes;
  }

  /** The `reply_video` calls of the search loop, in order. */
  method SendVideos(rows: seq<Row>) returns (videos: seq<Event>)
    ensures videos == Videos(rows)
  {
    videos := [];
    for i := 0 to |rows|
      invariant videos == Videos(rows[..i])
    {
      VideosStep(rows, i);
      videos := videos + [Video(rows[i].movie.fileId, rows[i].movie.title)];
    }
    assert rows[..|rows|] == rows;
  }

  // ---------------------------------------------------------------------
  // Properties of the handlers' effects

  /** Admin text is never taken as a movie code or a search: it sends no
      video and changes no movie's view count. */
  lemma AdminTextServesNoVideo(p: Pending, text: string, m: Movies, cats: set<string>,
                               users: map<string, string>, outcomes: seq<bool>)
    requires |outcomes| == |users|
    ensures forall e | e in AdminReplies(p, text, m, cats, users, outcomes) :: !e.Video?
    ensures forall c | c in m && c in AdminMovies(p, text, m) :: AdminMovies(p, text, m)[c].views == m[c].views
  {
    if p == AwaitingBroadcast {
      NoVideoAppended(Deliveries(Recipients(users), text, outcomes), Say(BroadcastSent));
    }
  }

  /** A viewer's text that is no code is answered with matching titles
      only: every video sent is of a title containing the text. */
  lemma ViewerVideosMatchQuery(text: string, m: Movies)
    requires text !in m
    ensures forall i | 0 <= i < |ViewerReplies(text, m)| ::
              ViewerReplies(text, m)[i].Video? ==> ContainsIgnoringCase(ViewerReplies(text, m)[i].caption, text)
  {
    var found := SearchTitles(m, text);
    var r := ViewerReplies(text, m);
    if found != [] {
      assert r == Videos(found);
      forall i | 0 <= i < |r| ensures ContainsIgnoringCase(r[i].caption, text) {
        assert r[i].caption == found[i].movie.title;
        assert ContainsIgnoringCase(found[i].movie.title, text);
      }
    }
  }

  /** "Not found" is the answer to a viewer's text exactly when it is no
      code and no title contains it. */
  lemma ViewerNotFoundIffNoMatch(text: string, m: Movies)
    ensures ViewerReplies(text, m) == [Say(MovieNotFound)]
            <==> text !in m && forall c | c in m :: !ContainsIgnoringCase(m[c].title, text)
  {
    if text !in m {
      var found := SearchTitles(m, text);
      if found != [] {
        assert Videos(found)[0].Video?;
        var c := found[0].code;
        assert c in m && ContainsIgnoringCase(m[c].title, text);
      }
    }
  }

  /** A button from the movie list opens the movie it names: the video of
      that movie is sent and its view count goes up by one. */
  lemma MovieButtonOpensItsMovie(m: Movies, cats: set<string>, i: nat)
    requires i < |AllMovies(m)|
    ensures var row := AllMovies(m)[i];
            var a := Route(MovieButtons(AllMovies(m))[i].data);
            && a == OpenMovie(row.code)
            && CallbackReplies(a, m, cats) == [Video(row.movie.fileId, row.movie.title)]
            && Bump(m, row.code)[row.code].views == row.movie.views + 1
  {
  }

  // ---------------------------------------------------------------------
  // The bot

  class Bot {
    /** `ADMINS` and `CHANNELS` from the environment. */
    const admins: set<string>
    const channels: seq<string>
    const db: Database
    var addingMovie: map<string, bool>
    var deletingMovie: map<string, bool>
    var addingCategory: map<string, bool>
    var deletingCategory: map<string, bool>
    var broadcasting: map<string, bool>
    /** Everything the bot has sent, oldest first. */
    var log: seq<Event>

    function CurrentFlags(): Flags
      reads this
    {
      Flags(addingMovie, deletingMovie, addingCategory, deletingCategory, broadcasting)
    }

    ghost predicate Valid()
      reads this
    {
      Exclusive(CurrentFlags())
    }

    constructor (admins: set<string>, channels: seq<string>)
      ensures this.admins == admins && this.channels == channels
      ensures fresh(db) && db.movies == map[] && db.categories == {} && db.users == map[]
      ensures CurrentFlags() == Flags(map[], map[], map[], map[], map[])
      ensures log == []
      ensures Valid()
    {
      this.admins := admins;
      this.channels := channels;
      db := new Database();
      addingMovie, deletingMovie, addingCategory, deletingCategory, broadcasting := map[], map[], map[], map[], map[];
      log := [];
    }

    /** `d[u] = b` on the flag dictionary of kind `p`. */
    method SetFlag(p: Pending, u: string, b: bool)
      modifies this
      ensures CurrentFlags() == Flag(old(CurrentFlags()), p, u, b)
      ensures log == old(log)
    {
      match p {
        case Idle =>
        case AwaitingMovieAdd => addingMovie := addingMovie[u := b];
        case AwaitingMovieDelete => deletingMovie := deletingMovie[u := b];
        case AwaitingCategoryAdd => addingCategory := addingCategory[u := b];
        case AwaitingCategoryDelete => deletingCategory := deletingCategory[u := b];
        case AwaitingBroadcast => broadcasting := broadcasting[u := b];
      }
    }

    /** The admin part of `text_handler`: the pending flags in their fixed
      order, then the menu labels. */
    method HandleAdminText(userId: string, text: string, outcomes: seq<bool>) returns (outcome: Outcome)
      requires Valid()
      requires |outcomes| == |db.users|
      modifies this, db
      ensures Valid()
      ensures var p := old(PendingIn(CurrentFlags(), userId));
              && db.movies == AdminMovies(p, text, old(db.movies))
              && db.categories == AdminCategories(p, text, old(db.categories))
              && db.users == old(db.users)
              && CurrentFlags() == NextFlags(old(CurrentFlags()), userId, text)
              && log == old(log) + AdminReplies(p, text, old(db.movies), old(db.categories), old(db.users), outcomes)
              && (outcome == Raised <==> p == AwaitingMovieAdd && ParseMovieAdd(text).TooManyParts?)
    {
      NextFlagsStep(CurrentFlags(), userId, text);
      var p := PendingIn(CurrentFlags(), userId);
      if p == Idle {
        HandleMenu(userId, text);
        outcome := Handled;
      } else {
        outcome := HandlePayload(p, userId, text, outcomes);
      }
    }

    /** An admin's text with a flag set: the follow-up the flag asked for.
      Every branch clears the flag, except an add-movie payload that did
      not give four fields. */
    method HandlePayload(p: Pending, userId: string, text: string, outcomes: seq<bool>) returns (outcome: Outcome)
      requires p != Idle
      requires |outcomes| == |db.users|
      modifies this, db
      ensures db.movies == AdminMovies(p, text, old(db.movies))
      ensures db.categories == AdminCategories(p, text, old(db.categories))
      ensures db.users == old(db.users)
      ensures CurrentFlags() == if NextPending(p, text) == Idle then Flag(old(CurrentFlags()), p, userId, false)
                                else old(CurrentFlags())
      ensures log == old(log) + AdminReplies(p, text, old(db.movies), old(db.categories), old(db.users), outcomes)
      ensures outcome == Raised <==> p == AwaitingMovieAdd && ParseMovieAdd(text).TooManyParts?
    {
      outcome := Handled;
      var replies: seq<Event>;
      match p {
        case AwaitingMovieAdd =>
          outcome, replies := HandleMovieAdd(userId, text);
        case AwaitingMovieDelete =>
          db.DeleteMovie(text);
          SetFlag(AwaitingMovieDelete, userId, false);
          replies := [Say(MovieDeleted(text))];
        case AwaitingCategoryAdd =>
          db.AddCategory(text);
          SetFlag(AwaitingCategoryAdd, userId, false);
          replies := [Say(CategoryAdded(text))];
        case AwaitingCategoryDelete =>
          db.DeleteCategory(text);
          SetFlag(AwaitingCategoryDelete, userId, false);
          replies := [Say(CategoryDeleted(text))];
        case AwaitingBroadcast =>
          SetFlag(AwaitingBroadcast, userId, false);
          var attempts := SendAll(Recipients(db.users), text, outcomes);
          replies := attempts + [Say(BroadcastSent)];
      }
      log := log + replies;
    }

    /** The add-movie payload `code;file_id;title;category`: too few fields
      get the format warning and keep the flag, too many raise in the
      unpack, exactly four store the movie and clear the flag. */
    method HandleMovieAdd(userId: string, text: string) returns (outcome: Outcome, replies: seq<Event>)
      modifies this, db
      ensures db.movies == AdminMovies(AwaitingMovieAdd, text, old(db.movies))
      ensures db.categories == old(db.categories) && db.users == old(db.users)
      ensures CurrentFlags() == if ParseMovieAdd(text).Fields? then Flag(old(CurrentFlags()), AwaitingMovieAdd, userId, false)
                                else old(CurrentFlags())
      ensures log == old(log)
      ensures replies == match ParseMovieAdd(text)
                         case Fields(_, _, title, _) => [Say(MovieAdded(title))]
                         case TooFewParts => [Say(FormatWarning)]
                         case TooManyParts => []
      ensures outcome == Raised <==> ParseMovieAdd(text).TooManyParts?
    {
      var parts := Split(text, ';');
      if |parts| < 4 {
        return Handled, [Say(FormatWarning)];
      }
      if |parts| != 4 {
        // `code, file_id, title, category = map(str.strip, parts)` raises
        return Raised, [];
      }
      var code, fileId, title, category := Strip(parts[0]), Strip(parts[1]), Strip(parts[2]), Strip(parts[3]);
      db.AddMovie(code, fileId, title, category);
      SetFlag(AwaitingMovieAdd, userId, false);
      return Handled, [Say(MovieAdded(title))];
    }

    /** An idle admin's text: a menu label starts its flow or answers
      directly; any other text is ignored. */
    method HandleMenu(userId: string, text: string)
      modifies this
      ensures CurrentFlags() == Flag(old(CurrentFlags()), LabelTarget(text), userId, true)
      ensures log == old(log) + MenuReplies(text, db.movies, db.categories, db.users)
    {
      if text == AddMovieLabel {
        SetFlag(AwaitingMovieAdd, userId, true);
        log := log + [Say(FormatPrompt)];
      } else if text == DeleteMovieLabel {
        SetFlag(AwaitingMovieDelete, userId, true);
        log := log + [Say(AskMovieCode)];
      } else if text == AddCategoryLabel {
        SetFlag(AwaitingCategoryAdd, userId, true);
        log := log + [Say(AskCategoryName)];
      } else if text == DeleteCategoryLabel {
        SetFlag(AwaitingCategoryDelete, userId, true);
        log := log + [Say(AskCategoryToDelete)];
      } else if text == TopMoviesLabel {
        var rows := TopMovies(db.movies, DefaultTopLimit);
        log := log + [Say(TopList(rows))];
      } else if text == StatisticsLabel {
        var usersCount := |db.users|;
        var moviesCount := |db.movies|;
        var categoriesCount := |SortedList(db.categories)|;
        log := log + [Say(Stats(usersCount, moviesCount, categoriesCount))];
      } else if text == BroadcastLabel {
        SetFlag(AwaitingBroadcast, userId, true);
        log := log + [Say(AskBroadcastText)];
      }
    }

    /** The viewer part of `text_handler`: exact code lookup, then title
      search. */
    method ServeViewer(text: string)
      modifies this`log, db
      ensures db.movies == Bump(old(db.movies), text)
      ensures db.categories == old(db.categories) && db.users == old(db.users)
      ensures log == old(log) + ViewerReplies(text, old(db.movies))
    {
      var movie := FindMovie(db.movies, text);
      if movie.Some? {
        db.UpdateMovieViews(text);
        log := log + [Video(movie.value.fileId, movie.value.title)];
        return;
      }
      var results := SearchTitles(db.movies, text);
      if results != [] {
        var videos := SendVideos(results);
        log := log + videos;
      } else {
        log := log + [Say(MovieNotFound)];
      }
    }

    /** `text_handler`, given the stripped-before message text, the outcome
      of each channel lookup and of each broadcast delivery. */
    method HandleText(userId: string, message: string, lookups: seq<Lookup>, outcomes: seq<bool>)
      returns (outcome: Outcome)
      requires Valid()
      requires |lookups| == |channels|
      requires |outcomes| == |db.users|
      modifies this, db
      ensures Valid()
      ensures db.users == old(db.users)
      ensures forall v | v != userId :: PendingIn(CurrentFlags(), v) == old(PendingIn(CurrentFlags(), v))
      ensures !AllAdmit(lookups) ==>
                && outcome == Handled
                && db.movies == old(db.movies) && db.categories == old(db.categories)
                && CurrentFlags() == old(CurrentFlags())
                && log == old(log) + [Say(SubscribeFirst)]
      ensures AllAdmit(lookups) && IsAdmin(admins, userId) ==>
                var text := Strip(message);
                var p := old(PendingIn(CurrentFlags(), userId));
                && db.movies == AdminMovies(p, text, old(db.movies))
                && db.categories == AdminCategories(p, text, old(db.categories))
                && CurrentFlags() == NextFlags(old(CurrentFlags()), userId, text)
                && PendingIn(CurrentFlags(), userId) == NextPending(p, text)
                && log == old(log) + AdminReplies(p, text, old(db.movies), old(db.categories), old(db.users), outcomes)
                && (outcome == Raised <==> p == AwaitingMovieAdd && ParseMovieAdd(text).TooManyParts?)
      ensures AllAdmit(lookups) && !IsAdmin(admins, userId) ==>
                var text := Strip(message);
                && outcome == Handled
                && db.movies == Bump(old(db.movies), text)
                && db.categories == old(db.categories)
                && CurrentFlags() == old(CurrentFlags())
                && log == old(log) + ViewerReplies(text, old(db.movies))
    {
      var text := Strip(message);
      var subscribed, _ := IsSubscribed(lookups);
      if !subscribed {
        log := log + [Say(SubscribeFirst)];
        return Handled;
      }
      if IsAdmin(admins, userId) {
        NextFlagsStep(CurrentFlags(), userId, text);
        outcome := HandleAdminText(userId, text, outcomes);
        return;
      }
      ServeViewer(text);
      return Handled;
    }

    /** The callback-query handler: answer the query, check the
      subscription, then route the data through the handler's `if`/`elif`
      chain and perform the action. */
    method HandleCallback(userId: string, data: string, lookups: seq<Lookup>)
      requires |lookups| == |channels|
      modifies this`log, db
      ensures db.movies == if AllAdmit(lookups) && Route(data).OpenMovie?
                           then Bump(old(db.movies), Route(data).code) else old(db.movies)
      ensures db.categories == old(db.categories) && db.users == old(db.users)
      ensures log == old(log) + [CallbackAnswered]
                     + (if AllAdmit(lookups) then CallbackReplies(Route(data), old(db.movies), old(db.categories))
                        else [Say(SubscribeFirst)])
    {
      log := log + [CallbackAnswered];
      var subscribed, _ := IsSubscribed(lookups);
      if !subscribed {
        log := log + [Say(SubscribeFirst)];
        return;
      }
      Perform(Route(data));
    }

    /** What the callback-query handler does for each routed action. */
    method Perform(a: Action)
      modifies this`log, db
      ensures db.movies == if a.OpenMovie? then Bump(old(db.movies), a.code) else old(db.movies)
      ensures db.categories == old(db.categories) && db.users == old(db.users)
      ensures log == old(log) + CallbackReplies(a, old(db.movies), old(db.categories))
    {
      match a {
        case ListMovies =>
          var rows := AllMovies(db.movies);
          if rows != [] {
            log := log + [Menu(MoviesHeading, MovieButtons(rows))];
          } else {
            log := log + [Say(NoMovies)];
          }
        case ListCategories =>
          var names := SortedList(db.categories);
          if names != [] {
            log := log + [Menu(CategoriesHeading, CategoryButtons(names))];
          } else {
            log := log + [Say(NoCategories)];
          }
        case ShowCategory(category) =>
          var rows := MoviesInCategory(db.movies, category);
          if rows != [] {
            log := log + [Menu(CategoryHeading(category), MovieButtons(rows))];
          } else {
            log := log + [Say(EmptyCategory)];
          }
        case OpenMovie(code) =>
          var movie := FindMovie(db.movies, code);
          if movie.Some? {
            db.UpdateMovieViews(code);
            log := log + [Video(movie.value.fileId, movie.value.title)];
          } else {
            log := log + [Say(MovieNotFound)];
          }
        case PromptSearch =>
          log := log + [Say(SearchHint)];
        case ShowInfo =>
          log := log + [Say(About)];
        case NoAction =>
      }
    }

    /** `/start`: record the user, check the subscription, show the menu. */
    method HandleStart(userId: string, username: Option<string>, lookups: seq<Lookup>)
      requires |lookups| == |channels|
      modifies this`log, db
      ensures db.users == old(db.users)[userId := StoredName(username)]
      ensures db.movies == old(db.movies) && db.categories == old(db.categories)
      ensures log == old(log) + [if AllAdmit(lookups) then Menu(Welcome, MainMenu()) else Say(JoinChannelFirst)]
    {
      db.AddUser(userId, username);
      var subscribed, _ := IsSubscribed(lookups);
      if !subscribed {
        log := log + [Say(JoinChannelFirst)];
        return;
      }
      log := log + [Menu(Welcome, MainMenu())];
    }
  }
}
