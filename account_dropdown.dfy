/** The account menu in the page header: an avatar button with a credits
    badge that opens a dropdown showing the account, its credits, an
    optional "Buy More Credits" button and "Sign Out". */
module AccountDropdown {
  import opened Text

  /** The signed-in user as the identity provider describes it. */
  datatype User = User(displayName: Option<string>, email: Option<string>, photoUrl: Option<string>)

  /** What the avatar button shows: the user's photo or an initial. */
  datatype Avatar = Photo(url: string) | Initial(letter: char)

  /** The open dropdown's contents. */
  datatype Menu = Menu(title: string, email: Option<string>, credits: int, buyButton: bool)

  /** What the component renders for a signed-in user. */
  datatype View = View(avatar: Avatar, badge: Option<int>, menu: Option<Menu>)

  /** The effect of a dropdown button, performed after the dropdown closes. */
  datatype Effect = BuyCredits | SignOut

  /** `s?.[0]` for a nullable string: the first character, if there is one. */
  function FirstChar(s: Option<string>): Option<char> {
    if s.Some? && s.value != "" then Some(s.value[0]) else None
  }

  /** The letter on the avatar: the first character of the display name,
      else of the email, else "U", in upper case. */
  function AvatarInitial(u: User): (c: char)
    ensures !IsAsciiLower(c)
    ensures Truthy(u.displayName) ==> c == ToUpperAscii(u.displayName.value[0])
    ensures !Truthy(u.displayName) && Truthy(u.email) ==> c == ToUpperAscii(u.email.value[0])
    ensures !Truthy(u.displayName) && !Truthy(u.email) ==> c == 'U'
  {
    var first :=
      if FirstChar(u.displayName).Some? then FirstChar(u.displayName).value
      else if FirstChar(u.email).Some? then FirstChar(u.email).value
      else 'U';
    ToUpperAscii(first)
  }

  /** The badge by the avatar is shown exactly when the credits are known. */
  function CreditsBadge(credits: Option<int>): (b: Option<int>)
    ensures b.Some? <==> credits.Some?
    ensures b.Some? ==> b.value == credits.value
  {
    credits
  }

  /** The count in the dropdown: the credits, or 0 while they are unknown. */
  function CreditsShown(credits: Option<int>): (n: int)
    ensures credits.Some? ==> n == credits.value
    ensures credits.None? ==> n == 0
  {
    credits.GetOr(0)
  }

  /** The rendering: nothing without a user; otherwise the avatar and badge,
      and the dropdown only while open. "Buy More Credits" is there only when
      the page passed a callback for it. */
  function Render(user: Option<User>, credits: Option<int>, hasBuyCallback: bool, open: bool): (v: Option<View>)
    ensures v.None? <==> user.None?
    ensures v.Some? ==> (v.value.menu.Some? <==> open)
    ensures v.Some? ==> v.value.badge == CreditsBadge(credits)
    ensures v.Some? && v.value.menu.Some? ==>
      && v.value.menu.value.credits == CreditsShown(credits)
      && (v.value.menu.value.buyButton <==> hasBuyCallback)
    ensures v.Some? && v.value.menu.Some? ==>
      v.value.menu.value.title == (if Truthy(user.value.displayName) then user.value.displayName.value else "My Account")
    ensures v.Some? && v.value.menu.Some? ==> v.value.menu.value.email == user.value.email
    ensures v.Some? ==> (v.value.avatar.Photo? <==> Truthy(user.value.photoUrl))
    ensures v.Some? && v.value.avatar.Photo? ==> v.value.avatar.url == user.value.photoUrl.value
    ensures v.Some? && v.value.avatar.Initial? ==> v.value.avatar.letter == AvatarInitial(user.value)
  {
    if user.None? then None
    else
      var u := user.value;
      var avatar := if Truthy(u.photoUrl) then Photo(u.photoUrl.value) else Initial(AvatarInitial(u));
      var title := if Truthy(u.displayName) then u.displayName.value else "My Account";
      var menu := if open then Some(Menu(title, u.email, CreditsShown(credits), hasBuyCallback)) else None;
      Some(View(avatar, CreditsBadge(credits), menu))
  }

  /** The open/closed state of the dropdown. */
  class Dropdown {
    var open: bool

    constructor ()
      ensures !open
    {
      open := false;
    }

    /** The avatar button toggles the dropdown. */
    method ToggleFromAvatar()
      modifies this
      ensures open == !old(open)
    {
      open := !open;
    }

    /** A mouse press anywhere in the document: one outside the component
        closes the dropdown. Nothing happens while the component renders
        nothing (no user), since its root element is then not mounted, or
        when the press is inside it. */
    method DocumentMouseDown(rootMounted: bool, insideRoot: bool)
      modifies this
      ensures open == (old(open) && !(rootMounted && !insideRoot))
    {
      if rootMounted && !insideRoot {
        open := false;
      }
    }

    /** "Buy More Credits": closes the dropdown, then asks the page to sell
        credits. */
    method ClickBuyCredits() returns (effect: Effect)
      modifies this
      ensures !open && effect == BuyCredits
    {
      open := false;
      effect := BuyCredits;
    }

    /** "Sign Out": closes the dropdown, then signs out. */
    method ClickSignOut() returns (effect: Effect)
      modifies this
      ensures !open && effect == SignOut
    {
      open := false;
      effect := SignOut;
    }
  }
}
