/**
 * The info-QR state holder of the `com.CodeShark.SocietyQ` package: the
 * logged-in username read from the preferences store (or "Unknown User"),
 * a fixed uid, and the payload built from the two.
 */
module InfoQrViewModel {
  import opened Wrappers
  import opened QrPayload
  import opened Preferences
  import RwaInfoQrViewModel

  const FallbackUserName := "Unknown User"
  const FixedUserId := "837ED1100E31W"

  /** The payload flow's initial value, written out with the uid and an empty name. */
  const InitialQrCodeJsonData := "{\"Name\": \"\", \"uid\": \"837ED1100E31W\"}"

  class InfoQrViewModel {
    var userName: string
    const userId: string

    /** The name starts empty; the uid is fixed. */
    constructor ()
      ensures userName == "" && userId == FixedUserId
      ensures QrCodeJsonData() == InitialQrCodeJsonData
    {
      userName := "";
      userId := FixedUserId;
      new;
      InitialValueIsUnnamedPayload();
    }

    /** The `init` coroutine: the stored username, or the fallback when none is stored. */
    method LoadUserName(prefs: UserPreferences)
      modifies this`userName
      ensures userName == prefs.GetLoggedInUsername().GetOr(FallbackUserName)
      ensures prefs.GetLoggedInUsername() == None ==> userName == "Unknown User"
    {
      var stored := prefs.GetLoggedInUsername();
      userName := stored.GetOr(FallbackUserName);
    }

    /**
     * The payload the flow emits for the current name and uid: the template
     * filled in with both, unescaped, which a reader gets back intact unless
     * the name holds a quote (see `QrPayload.BuildIsAmbiguous`).
     */
    function QrCodeJsonData(): (p: string)
      reads this
      ensures p == Build(userName, userId)
      ensures '"' !in userName ==> Parse(p) == Some((userName, userId))
    {
      if '"' !in userName then
        ParseBuild(userName, userId);
        Build(userName, userId)
      else
        Build(userName, userId)
    }
  }

  /**
   * The written-out initial value is the builder's payload for an empty
   * name, and it is not the placeholder the info-QR screen waits on, so
   * that screen would show a code for the empty name at once.
   */
  lemma InitialValueIsUnnamedPayload()
    ensures InitialQrCodeJsonData == Build("", FixedUserId)
    ensures InitialQrCodeJsonData != RwaInfoQrViewModel.Placeholder
    ensures RwaInfoQrViewModel.ScreenShowsCode(InitialQrCodeJsonData)
  {
    var a := Opening + "" + Separator;
    assert a == "{\"Name\": \"\", \"uid\": \"";
    var b := a + FixedUserId;
    assert b == "{\"Name\": \"\", \"uid\": \"837ED1100E31W";
    assert |InitialQrCodeJsonData| != |RwaInfoQrViewModel.Placeholder|;
  }
}
