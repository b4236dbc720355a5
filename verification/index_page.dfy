/**
 * The landing page's splash gating: the intro animation plays on the first
 * visit of a browser session and never again in that session. The session
 * store is passed in as the value of its single entry, if any.
 */
module IndexPage {
  import opened Wrappers

  /** The value the page stores once the intro has played. */
  const SeenFlag := "true"

  /** JavaScript truthiness of the stored entry: present and non-empty. */
  predicate Truthy(entry: Option<string>) {
    entry.Some? && entry.value != ""
  }

  class SplashGate {
    var showSplash: bool
    var hasSeenSplash: bool
    /** The session entry recording that the intro has been seen. */
    var sessionSeen: Option<string>

    /**
     * The two flags always disagree: every handler sets both at once, one to
     * false and the other to true.
     */
    ghost predicate Valid()
      reads this
    {
      showSplash == !hasSeenSplash
    }

    /**
     * Whether the intro is rendered over the page. Since the flags always
     * disagree, either one of them alone decides it.
     */
    function SplashRendered(): (r: bool)
      reads this
      requires Valid()
      ensures r <==> showSplash
      ensures r <==> !hasSeenSplash
    {
      showSplash && !hasSeenSplash
    }

    /** First render, before the mount effect runs. */
    constructor (session: Option<string>)
      ensures Valid() && showSplash && !hasSeenSplash && sessionSeen == session
    {
      showSplash, hasSeenSplash, sessionSeen := true, false, session;
    }

    /** The mount effect: a seen flag in the session suppresses the intro. */
    method Mount()
      requires Valid()
      modifies this`showSplash, this`hasSeenSplash
      ensures Valid()
      ensures Truthy(sessionSeen) ==> !showSplash && hasSeenSplash
      ensures !Truthy(sessionSeen) ==> showSplash == old(showSplash) && hasSeenSplash == old(hasSeenSplash)
      ensures old(!showSplash) ==> !showSplash
      ensures old(hasSeenSplash) ==> hasSeenSplash
    {
      if sessionSeen.Some? && sessionSeen.value != "" {
        showSplash := false;
        hasSeenSplash := true;
      }
    }

    /** The intro finished: hide it and remember that in the session; a second call changes nothing. */
    method HandleSplashComplete()
      requires Valid()
      modifies this
      ensures Valid()
      ensures !showSplash && hasSeenSplash && sessionSeen == Some(SeenFlag)
      ensures old(!showSplash && hasSeenSplash && sessionSeen == Some(SeenFlag)) ==>
                showSplash == old(showSplash) && hasSeenSplash == old(hasSeenSplash) && sessionSeen == old(sessionSeen)
    {
      showSplash := false;
      hasSeenSplash := true;
      sessionSeen := Some(SeenFlag);
    }
  }

  /** Opening the page: the intro plays exactly when the session holds no seen flag. */
  method OpenPage(session: Option<string>) returns (rendered: bool)
    ensures rendered <==> !Truthy(session)
  {
    var gate := new SplashGate(session);
    gate.Mount();
    rendered := gate.SplashRendered();
  }

  /**
   * Opening the page, letting the intro finish, and opening the page again in
   * the same session: the second visit shows no intro, whatever the session
   * held at first.
   */
  method ReopenAfterIntro(session: Option<string>) returns (renderedFirst: bool, renderedAgain: bool)
    ensures renderedFirst <==> !Truthy(session)
    ensures !renderedAgain
  {
    var gate := new SplashGate(session);
    gate.Mount();
    renderedFirst := gate.SplashRendered();
    gate.HandleSplashComplete();
    var again := new SplashGate(gate.sessionSeen);
    again.Mount();
    renderedAgain := again.SplashRendered();
  }
}
