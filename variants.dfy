/**
 * How the two controller files differ: default name and discovery pattern,
 * case handling in `playMusic`, and where `connect` gets its serial channel.
 * Everything else the two classes do is the shared code of `Controller`.
 */
module Variants {
  import opened Wrappers
  import opened Controller
  import W = Wearable
  import B = Bluetooth

  /** Each default name passes its own discovery filter and not the other file's. */
  lemma DefaultNamesAndPatterns()
    ensures W.Discoverable(W.DefaultName) && B.Discoverable(B.DefaultName)
    ensures !W.Discoverable(B.DefaultName) && !B.Discoverable(W.DefaultName)
  {
  }

  /**
   * lib/wearable.js compares the track name verbatim, lib/bluetooth.js after
   * upper-casing: they agree on upper-case names, bluetooth.js also accepts
   * other spellings of CHRISTMAS, and only wearable.js accepts a missing name.
   */
  lemma PlayMusicCaseHandling(s: string)
    ensures W.SelectTrack(Some(s)) == Christmas ==> B.SelectTrack(Some(s)) == Some(Christmas)
    ensures ToUpper(s) == s ==> B.SelectTrack(Some(s)) == Some(W.SelectTrack(Some(s)))
    ensures W.SelectTrack(Some("christmas")) == Mario && B.SelectTrack(Some("christmas")) == Some(Christmas)
    ensures W.SelectTrack(None) == Mario && B.SelectTrack(None) == None
  {
    W.SelectTrackCaseSensitive(Some(s));
    B.SelectTrackIgnoresCase(s);
    B.SelectTrackIgnoresCase("christmas");
  }

  /**
   * For the same device list both files connect to the same device; wearable.js
   * opens channel 1 on it directly, bluetooth.js first looks the channel up and
   * opens the one it is given.
   */
  lemma ConnectChannelSource(devices: seq<Device>, name: string, channel: int, outcome: Outcome)
    requires exists d :: d in devices && d.name == name
    ensures var w, b := W.ConnectCalls(devices, name), B.ConnectCalls(devices, name, Some(channel));
      && |w| == 1 && w[0] == Open(w[0].address, 1)
      && b == [FindChannel(w[0].address), Open(w[0].address, channel)]
  {
    W.ConnectNeedsExactName(devices, name, outcome);
  }
}
