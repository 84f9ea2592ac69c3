/**
 * The state pattern demo: a website whose banner is delegated to its current state object,
 * the guest state or the member state.
 */
module StatePattern {
  import opened Wrappers

  /** The two state singletons. */
  datatype BannerState = GuestState | MemberState

  const GuestBanner := "welcome to out website, create an account to get started"
  const MemberGreeting := "welcome back to our website "

  /** Each state's `showBanner(name)`: the guest banner is fixed, the member banner names the user. */
  function Banner(state: BannerState, name: string): (text: string)
    ensures state == GuestState ==> text == GuestBanner
    ensures state == MemberState ==> |text| == |MemberGreeting| + |name|
    ensures state == MemberState ==> text[..|MemberGreeting|] == MemberGreeting && text[|MemberGreeting|..] == name
  {
    match state
    case GuestState => GuestBanner
    case MemberState => MemberGreeting + name
  }

  /** The guest banner does not depend on the name it is given. */
  lemma GuestBannerIgnoresName(a: string, b: string)
    ensures Banner(GuestState, a) == Banner(GuestState, b)
  {
  }

  /** Different user names give different member banners, and no member banner is the guest banner. */
  lemma MemberBannerDistinguishes(a: string, b: string)
    ensures Banner(MemberState, a) == Banner(MemberState, b) <==> a == b
    ensures Banner(MemberState, a) != Banner(GuestState, b)
  {
    var ta, tb := Banner(MemberState, a), Banner(MemberState, b);
    if ta == tb {
      assert a == ta[|MemberGreeting|..];
    }
    assert GuestBanner[20] != ta[20];
  }

  /** The `website` context object. */
  class Website {
    var state: Option<BannerState>
    var userName: string

    /** The state is initially `null` and the user name empty. */
    constructor ()
      ensures state == None && userName == ""
    {
      state := None;
      userName := "";
    }

    /** `showBanner`: delegates to the state with the stored name; with no state it throws. */
    function ShowBanner(): (r: Result<string>)
      reads this
      ensures r.Err? <==> state.None?
      ensures state == Some(GuestState) ==> r == Ok(GuestBanner)
      ensures state == Some(MemberState) ==> r == Ok(MemberGreeting + userName)
    {
      match state
      case None => Err("Cannot read properties of null (reading 'showBanner')")
      case Some(s) => Ok(Banner(s, userName))
    }

    /** `openWebsite`: the guest state, whatever the state was; the user name is kept. */
    method OpenWebsite()
      modifies this`state
      ensures state == Some(GuestState)
    {
      state := Some(GuestState);
    }

    /** `login`: stores the name and enters the member state, from any state. */
    method Login(name: string)
      modifies this
      ensures userName == name && state == Some(MemberState)
    {
      userName := name;
      state := Some(MemberState);
    }
  }

  /** The demo: the guest banner, then the member banner for `'John Doe'`; before both, an error. */
  method StateUsage() returns (before: Result<string>, asGuest: Result<string>, asMember: Result<string>)
    ensures before.Err?
    ensures asGuest == Ok("welcome to out website, create an account to get started")
    ensures asMember == Ok("welcome back to our website John Doe")
  {
    var website := new Website();
    before := website.ShowBanner();
    website.OpenWebsite();
    asGuest := website.ShowBanner();
    website.Login("John Doe");
    asMember := website.ShowBanner();
    assert MemberGreeting + "John Doe" == "welcome back to our website John Doe";
  }
}
