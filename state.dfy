/** The application state store: one mutable record holding the language,
    the form, the feeds, the posts, the ids of read posts and the UI error,
    with getters that read it and setters that update one part in place.
    `Date.now()`, read by `addFeed`, is passed in as `now`. */
module State {
  import opened Common
  import opened Xml

  const FillingState: string := "filling"
  const FeedIdPrefix: string := "feed-"

  /** `form`: its `state`, the `fields.url` text and the `errors` object. */
  datatype Form = Form(state: string, url: string, errors: map<string, string>)

  /** `ui`: the error currently shown, if any. */
  datatype Ui = Ui(error: Option<string>)

  /** A feed as stored: its generated id and the url, title and description given. */
  datatype Feed = Feed(id: string, url: string, title: string, description: string)

  /** What `addFeed` reads from its argument. */
  datatype FeedData = FeedData(url: string, title: string, description: string)

  /** The whole record, as a value. */
  datatype Snapshot = Snapshot(lng: string, form: Form, feeds: seq<Feed>, posts: seq<Post>,
                               readPosts: set<string>, ui: Ui)

  /** `initialState`. */
  function InitialState(): (s: Snapshot)
    ensures s.form.state == FillingState && s.form.url == "" && s.form.errors == map[]
    ensures s.feeds == [] && s.posts == [] && s.readPosts == {} && s.ui.error == None
  {
    Snapshot("ru", Form(FillingState, "", map[]), [], [], {}, Ui(None))
  }

  /** The id `feed-${now}` given to a feed added at time `now`. */
  function FeedId(now: nat): (id: string)
    ensures |id| > |FeedIdPrefix| && id[..|FeedIdPrefix|] == FeedIdPrefix
    ensures id[|FeedIdPrefix|..] == NatToString(now)
  {
    FeedIdPrefix + NatToString(now)
  }

  /** Feeds added at different times get different ids. */
  lemma FeedIdInjective(now1: nat, now2: nat)
    requires FeedId(now1) == FeedId(now2)
    ensures now1 == now2
  {
    assert NatToString(now1) == FeedId(now1)[|FeedIdPrefix|..];
    assert NatToString(now2) == FeedId(now2)[|FeedIdPrefix|..];
    NatToStringInjective(now1, now2);
  }

  class AppState {
    var lng: string
    var form: Form
    var feeds: seq<Feed>
    var posts: seq<Post>
    var readPosts: set<string>
    var ui: Ui

    function View(): Snapshot
      reads this
    {
      Snapshot(lng, form, feeds, posts, readPosts, ui)
    }

    /** `createState()`: a store holding the initial state. */
    constructor ()
      ensures View() == InitialState()
    {
      lng := "ru";
      form := Form(FillingState, "", map[]);
      feeds := [];
      posts := [];
      readPosts := {};
      ui := Ui(None);
    }

    function GetFormState(): string reads this { form.state }
    function GetFormUrl(): string reads this { form.url }
    function GetFormErrors(): map<string, string> reads this { form.errors }
    function GetFeeds(): seq<Feed> reads this { feeds }
    function GetPosts(): seq<Post> reads this { posts }
    function GetError(): Option<string> reads this { ui.error }
    function GetReadPosts(): set<string> reads this { readPosts }

    method SetFormState(newState: string)
      modifies this
      ensures GetFormState() == newState
      ensures View() == old(View()).(form := old(form).(state := newState))
    {
      form := form.(state := newState);
    }

    method SetFormUrl(url: string)
      modifies this
      ensures GetFormUrl() == url
      ensures View() == old(View()).(form := old(form).(url := url))
    {
      form := form.(url := url);
    }

    method SetFormErrors(errors: map<string, string>)
      modifies this
      ensures GetFormErrors() == errors
      ensures View() == old(View()).(form := old(form).(errors := errors))
    {
      form := form.(errors := errors);
    }

    /** Empties the url and the errors and puts the form back into `filling`. */
    method ClearForm()
      modifies this
      ensures GetFormUrl() == "" && GetFormErrors() == map[] && GetFormState() == FillingState
      ensures form == InitialState().form
      ensures View() == old(View()).(form := Form(FillingState, "", map[]))
    {
      form := form.(url := "");
      form := form.(errors := map[]);
      form := form.(state := FillingState);
    }

    /** Appends exactly one feed, built from `data` with the id `feed-${now}`. */
    method AddFeed(data: FeedData, now: nat)
      modifies this
      ensures |GetFeeds()| == |old(GetFeeds())| + 1
      ensures GetFeeds()[..|old(feeds)|] == old(GetFeeds())
      ensures var added := GetFeeds()[|old(feeds)|];
        added.url == data.url && added.title == data.title && added.description == data.description
        && added.id == FeedId(now)
      ensures View() == old(View()).(feeds := old(feeds) + [Feed(FeedId(now), data.url, data.title, data.description)])
    {
      var newFeed := Feed(FeedId(now), data.url, data.title, data.description);
      feeds := feeds + [newFeed];
    }

    /** Replaces the posts by the old posts followed by `postsData`. */
    method AddPosts(postsData: seq<Post>)
      modifies this
      ensures |GetPosts()| == |old(GetPosts())| + |postsData|
      ensures GetPosts()[..|old(posts)|] == old(GetPosts()) && GetPosts()[|old(posts)|..] == postsData
      ensures View() == old(View()).(posts := old(posts) + postsData)
    {
      posts := posts + postsData;
    }

    method SetError(error: string)
      modifies this
      ensures GetError() == Some(error)
      ensures View() == old(View()).(ui := Ui(Some(error)))
    {
      ui := ui.(error := Some(error));
    }

    method ClearError()
      modifies this
      ensures GetError() == None
      ensures View() == old(View()).(ui := Ui(None))
    {
      ui := ui.(error := None);
    }
  }
}
