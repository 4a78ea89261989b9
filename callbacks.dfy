/** Inline-keyboard buttons and the routing of their callback data in the
    callback-query handler.  A movie button carries `movie_{code}` and a
    category button `category_{name}`; the handler recovers the code or name
    with `data.split("_", 1)[1]`. */
module Callbacks {
  import opened Text
  import opened Catalog

  datatype Button = Button(text: string, data: string)

  function MovieData(code: string): string {
    "movie_" + code
  }

  function CategoryData(name: string): string {
    "category_" + name
  }

  /** What the callback-query handler does with a piece of callback data. */
  datatype Action =
    | ListMovies
    | ListCategories
    | ShowCategory(name: string)
    | OpenMovie(code: string)
    | PromptSearch
    | ShowInfo
    | NoAction

  /** The `if`/`elif` chain of the callback-query handler, in its order.
      Whatever name or code it extracts is exactly what follows the prefix
      of the data. */
  function Route(data: string): (a: Action)
    ensures a.ShowCategory? ==> data == CategoryData(a.name)
    ensures a.OpenMovie? ==> data == MovieData(a.code)
  {
    if data == "movies" then ListMovies
    else if data == "categories" then ListCategories
    else if StartsWith(data, "category_") then
      assert data == "category" + ['_'] + data[9..];
      SplitOnceAfter("category", '_', data[9..]);
      ShowCategory(SplitOnce(data, '_')[1])
    else if StartsWith(data, "movie_") then
      assert data == "movie" + ['_'] + data[6..];
      SplitOnceAfter("movie", '_', data[6..]);
      OpenMovie(SplitOnce(data, '_')[1])
    else if data == "search" then PromptSearch
    else if data == "info" then ShowInfo
    else NoAction
  }

  /** A movie button opens exactly the movie it was built for, underscores
      in the code included. */
  lemma RouteMovieData(code: string)
    ensures Route(MovieData(code)) == OpenMovie(code)
  {
    var data := MovieData(code);
    assert data[5] == '_' && "movies"[5] == 's';
    assert data[0] == 'm' && "category_"[0] == 'c' && "categories"[0] == 'c';
    assert StartsWith(data, "movie_");
  }

  /** A category button opens exactly the category it was built for,
      underscores in the name included. */
  lemma RouteCategoryData(name: string)
    ensures Route(CategoryData(name)) == ShowCategory(name)
  {
    var data := CategoryData(name);
    assert data[0] == 'c' && "movies"[0] == 'm';
    assert data[8] == '_' && "categories"[8] == 'e';
    assert StartsWith(data, "category_");
  }

  /** One button per row, labelled with the title, opening that row's movie. */
  function MovieButtons(rows: seq<Row>): (r: seq<Button>)
    ensures |r| == |rows|
    ensures forall i | 0 <= i < |r| :: r[i].text == rows[i].movie.title && Route(r[i].data) == OpenMovie(rows[i].code)
  {
    var r := seq(|rows|, i requires 0 <= i < |rows| => Button(rows[i].movie.title, MovieData(rows[i].code)));
    forall i | 0 <= i < |r| ensures Route(r[i].data) == OpenMovie(rows[i].code) {
      RouteMovieData(rows[i].code);
    }
    r
  }

  /** One button per category name, opening that category. */
  function CategoryButtons(names: seq<string>): (r: seq<Button>)
    ensures |r| == |names|
    ensures forall i | 0 <= i < |r| :: r[i].text == names[i] && Route(r[i].data) == ShowCategory(names[i])
  {
    var r := seq(|names|, i requires 0 <= i < |names| => Button(names[i], CategoryData(names[i])));
    forall i | 0 <= i < |r| ensures Route(r[i].data) == ShowCategory(names[i]) {
      RouteCategoryData(names[i]);
    }
    r
  }
}
