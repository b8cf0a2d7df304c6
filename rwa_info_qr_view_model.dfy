/**
 * The info-QR state holder of the `com.cryptic.rwa` package: a fixed name
 * and uid, the payload built from them, and the placeholder the payload
 * flow shows before its first value.
 */
module RwaInfoQrViewModel {
  import opened Wrappers
  import opened QrPayload

  const UserName := "Mouse321"
  const UserId := "837ED1100E31W"

  /** The flow's initial value. */
  const Placeholder := "{\"Name\": \"\", \"uid\": \"\"}"

  /** The payload once the flow has combined the name and the uid. */
  function QrCodeJsonData(): (p: string)
    ensures Parse(p) == Some((UserName, UserId))
  {
    ParseBuild(UserName, UserId);
    Build(UserName, UserId)
  }

  /** The steady payload, written out. */
  lemma SteadyPayload()
    ensures QrCodeJsonData() == "{\"Name\": \"Mouse321\", \"uid\": \"837ED1100E31W\"}"
  {
    var a := Opening + UserName;
    assert a == "{\"Name\": \"Mouse321";
    var b := a + Separator;
    assert b == "{\"Name\": \"Mouse321\", \"uid\": \"";
    var c := b + UserId;
    assert c == "{\"Name\": \"Mouse321\", \"uid\": \"837ED1100E31W";
  }

  /**
   * The placeholder is the payload of an empty name and an empty uid, and
   * it cannot be mistaken for the steady payload.
   */
  lemma PlaceholderIsEmptyPayload()
    ensures Placeholder == Build("", "")
    ensures Parse(Placeholder) == Some(("", ""))
    ensures Placeholder != QrCodeJsonData()
  {
    ParseBuild("", "");
  }

  /**
   * The readiness test of the (commented-out) info-QR screen: a payload
   * that is not empty and is not the placeholder is shown as a QR code.
   */
  predicate ScreenShowsCode(qrData: string)
  {
    |qrData| > 0 && qrData != Placeholder
  }

  /** For this holder the screen waits on the placeholder and shows the steady payload. */
  lemma ScreenWaitsForSteadyPayload()
    ensures !ScreenShowsCode(Placeholder)
    ensures ScreenShowsCode(QrCodeJsonData())
  {
    PlaceholderIsEmptyPayload();
  }
}
