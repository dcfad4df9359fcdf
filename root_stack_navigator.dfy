/** The root navigator: which screen the app shows, from three local flags and the store's
    authentication. */
module RootStackNavigator {
  import opened Wrappers
  import opened AppContext
  import PhoneInputScreen
  import OtpVerifyScreen

  datatype Screen = Splash | LanguageSelect | PhoneInput | OtpVerify | Main

  /** The `if` chain, first match wins. */
  function SelectScreen(showSplash: bool, hasSelectedLanguage: bool, phoneForOtp: string, isAuthenticated: bool): Screen {
    if showSplash then Splash
    else if !hasSelectedLanguage && !isAuthenticated then LanguageSelect
    else if !isAuthenticated && phoneForOtp == "" then PhoneInput
    else if !isAuthenticated && phoneForOtp != "" then OtpVerify
    else Main
  }

  /** Each screen's own condition; together they cover every combination and exclude each
      other. The main screen needs only a finished splash and a session, so a signed-in user
      never sees the language screen. */
  lemma ScreenConditions(splash: bool, lang: bool, phone: string, auth: bool)
    ensures SelectScreen(splash, lang, phone, auth) == Splash <==> splash
    ensures SelectScreen(splash, lang, phone, auth) == LanguageSelect <==> !splash && !lang && !auth
    ensures SelectScreen(splash, lang, phone, auth) == PhoneInput <==> !splash && lang && !auth && phone == ""
    ensures SelectScreen(splash, lang, phone, auth) == OtpVerify <==> !splash && lang && !auth && phone != ""
    ensures SelectScreen(splash, lang, phone, auth) == Main <==> !splash && auth
  {
  }

  /** The navigator's state; authentication lives in the store. */
  class RootNavigator {
    const store: AppStore
    var showSplash: bool
    var hasSelectedLanguage: bool
    var phoneForOtp: string

    ghost predicate Valid()
      reads this, store
    {
      store.Valid()
    }

    function Current(): Screen
      reads this, store
    {
      SelectScreen(showSplash, hasSelectedLanguage, phoneForOtp, store.isAuthenticated)
    }

    constructor (store: AppStore)
      requires store.Valid()
      ensures Valid() && this.store == store
      ensures showSplash && !hasSelectedLanguage && phoneForOtp == ""
      ensures Current() == Splash
    {
      this.store := store;
      showSplash := true;
      hasSelectedLanguage := false;
      phoneForOtp := "";
    }

    method HandleSplashComplete()
      modifies this
      ensures !showSplash
      ensures hasSelectedLanguage == old(hasSelectedLanguage) && phoneForOtp == old(phoneForOtp)
    {
      showSplash := false;
    }

    method HandleLanguageContinue()
      modifies this
      ensures hasSelectedLanguage
      ensures showSplash == old(showSplash) && phoneForOtp == old(phoneForOtp)
    {
      hasSelectedLanguage := true;
    }

    /** The phone screen's callback; a non-empty phone leads to the OTP screen. */
    method HandleSendOtp(phone: string)
      modifies this
      ensures phoneForOtp == phone
      ensures showSplash == old(showSplash) && hasSelectedLanguage == old(hasSelectedLanguage)
      ensures old(Current()) == PhoneInput && phone != "" ==> Current() == OtpVerify
    {
      phoneForOtp := phone;
    }

    method HandleOtpVerified()
      modifies this
      ensures phoneForOtp == ""
      ensures showSplash == old(showSplash) && hasSelectedLanguage == old(hasSelectedLanguage)
    {
      phoneForOtp := "";
    }

    /** The OTP screen's back button clears the phone: from the OTP screen, back to the phone
        screen. */
    method Back()
      modifies this
      ensures phoneForOtp == ""
      ensures showSplash == old(showSplash) && hasSelectedLanguage == old(hasSelectedLanguage)
      ensures old(Current()) == OtpVerify ==> Current() == PhoneInput
    {
      phoneForOtp := "";
    }

    /** `handleLogout`: ends the session and resets language and phone, so after the splash
        the language screen is next. */
    method HandleLogout()
      requires Valid()
      modifies this, store
      ensures Valid()
      ensures !store.isAuthenticated && !hasSelectedLanguage && phoneForOtp == ""
      ensures showSplash == old(showSplash)
      ensures store.bookings == old(store.bookings) && store.language == old(store.language)
      ensures !showSplash ==> Current() == LanguageSelect
    {
      store.Logout();
      hasSelectedLanguage := false;
      phoneForOtp := "";
    }
  }

  /** A first sign-in: the splash ends, a language is chosen, a ten-character phone is sent and
      a complete code is verified; the app then shows the main screen, signed in with that
      phone. */
  method SignIn(nav: RootNavigator, entry: OtpVerifyScreen.OtpEntry, phone: string)
    requires nav.Valid() && nav.Current() == Splash && !nav.store.isAuthenticated
    requires |phone| == 10
    requires entry.Valid() && entry.IsOtpComplete()
    modifies nav, nav.store
    ensures nav.Valid() && nav.Current() == Main
    ensures nav.store.operator == Some(nav.store.template.(phone := "+91 " + phone))
    ensures !nav.showSplash && nav.hasSelectedLanguage && nav.phoneForOtp == ""
    ensures nav.store.bookings == old(nav.store.bookings) && nav.store.language == old(nav.store.language)
  {
    nav.HandleSplashComplete();
    nav.HandleLanguageContinue();
    var sent := PhoneInputScreen.HandleSendOtp(phone);
    nav.HandleSendOtp(sent.phone);
    assert nav.Current() == OtpVerify;
    entry.ButtonMatchesVerify();
    var events := entry.HandleVerify(nav.store, nav.phoneForOtp);
    nav.HandleOtpVerified();
  }
}
