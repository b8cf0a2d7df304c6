/**
 * The text both info-QR state holders encode: a one-line JSON object built
 * by string templating, `{"Name": "<name>", "uid": "<uid>"}`, with a space
 * after each colon and the name and uid inserted without escaping.
 */
module QrPayload {
  import opened Wrappers

  const Opening := "{\"Name\": \""
  const Separator := "\", \"uid\": \""
  const Closing := "\"}"

  /** The payload for a name and a uid. */
  function Build(name: string, uid: string): (p: string)
    ensures |p| == |Opening| + |name| + |Separator| + |uid| + |Closing|
    ensures p[..|Opening|] == Opening && p[|p| - |Closing|..] == Closing
    ensures p[|Opening|..|Opening| + |name|] == name
    ensures p[|Opening| + |name| + |Separator|..|p| - |Closing|] == uid
  {
    Opening + name + Separator + uid + Closing
  }

  /** The first position at or after `from` where `Separator` starts in `s`. */
  function FindSeparator(s: string, from: nat): (r: Option<nat>)
    requires from <= |s|
    ensures r.Some? ==> from <= r.value && r.value + |Separator| <= |s|
                        && s[r.value..r.value + |Separator|] == Separator
    decreases |s| - from
  {
    if from + |Separator| > |s| then None
    else if s[from..from + |Separator|] == Separator then Some(from)
    else FindSeparator(s, from + 1)
  }

  /**
   * Reads a name and a uid back out of a payload: the name ends at the
   * first separator, and the uid is the rest.
   */
  function Parse(p: string): Option<(string, string)>
  {
    if |p| < |Opening| + |Closing| || p[..|Opening|] != Opening || p[|p| - |Closing|..] != Closing then None
    else
      var body := p[|Opening|..|p| - |Closing|];
      match FindSeparator(body, 0)
      case None => None
      case Some(i) => Some((body[..i], body[i + |Separator|..]))
  }

  /** With no quote in the name, the separator is first found right after it. */
  lemma {:induction false} SeparatorFollowsName(name: string, uid: string, from: nat)
    requires '"' !in name && from <= |name|
    ensures FindSeparator(name + Separator + uid, from) == Some(|name|)
    decreases |name| - from
  {
    var s := name + Separator + uid;
    if from < |name| {
      assert s[from] == name[from] != Separator[0];
      assert s[from..from + |Separator|][0] == s[from];
      SeparatorFollowsName(name, uid, from + 1);
    } else {
      assert s[from..from + |Separator|] == Separator;
    }
  }

  /** A name without quotes, and any uid, can be read back from the payload. */
  lemma ParseBuild(name: string, uid: string)
    requires '"' !in name
    ensures Parse(Build(name, uid)) == Some((name, uid))
  {
    var p := Build(name, uid);
    var body := name + Separator + uid;
    assert p == Opening + body + Closing;
    assert p[|Opening|..|p| - |Closing|] == body;
    SeparatorFollowsName(name, uid, 0);
    assert body[..|name|] == name;
    assert body[|name| + |Separator|..] == uid;
  }

  /**
   * Without escaping, the payload does not determine its name and uid: a
   * name holding the separator text reads like a different name and uid.
   */
  lemma BuildIsAmbiguous()
    ensures Build("x\", \"uid\": \"y", "z") == Build("x", "y\", \"uid\": \"z")
    ensures Parse(Build("x\", \"uid\": \"y", "z")) == Some(("x", "y\", \"uid\": \"z"))
  {
    var name := "x" + Separator + "y";
    assert name == "x\", \"uid\": \"y";
    var uid := "y" + Separator + "z";
    assert uid == "y\", \"uid\": \"z";
    assert Build(name, "z") == Opening + "x" + Separator + "y" + Separator + "z" + Closing;
    assert Build("x", uid) == Opening + "x" + Separator + "y" + Separator + "z" + Closing;
    ParseBuild("x", uid);
  }
}
