/**
 * The admin page (`app/admin/page.tsx`): a passphrase gate in front of the
 * settings dialog. The passphrase is hashed with SHA-256, written as
 * lower-case hexadecimal, and compared with the configured hash; a match
 * stores the flag "adminUnlocked" = "true" that the settings hook reads.
 *
 * The text encoder and the digest are parameters: SHA-256 (FIPS 180-4) is
 * not modelled, and a digest that throws is `None`.
 */
module AdminPage {
  import opened Wrappers
  import opened Text
  import LocalSettings

  type Byte = b: nat | b < 256

  /**
   * `b.toString(16).padStart(2, "0")`: the byte's high and low hexadecimal
   * digits; `ByteHexDigits` shows that this is what the padded text is.
   */
  function ByteHex(b: Byte): (r: string)
    ensures |r| == 2 && IsDigit(r[0], 16) && IsDigit(r[1], 16)
    ensures DigitValue(r[0]) * 16 + DigitValue(r[1]) == b
  {
    ByteHexDigits(b);
    [DigitChar(b / 16), DigitChar(b % 16)]
  }

  /** A byte prints as its high digit, then its low digit, the high digit a padding zero when it is 0. */
  lemma ByteHexDigits(b: Byte)
    ensures PadStart(ToRadix(b, 16), 2, '0') == [DigitChar(b / 16), DigitChar(b % 16)]
    ensures IsDigit(DigitChar(b / 16), 16) && IsDigit(DigitChar(b % 16), 16)
    ensures DigitValue(DigitChar(b / 16)) * 16 + DigitValue(DigitChar(b % 16)) == b
  {
    assert DigitValue(DigitChar(b / 16)) == b / 16;
    assert DigitValue(DigitChar(b % 16)) == b % 16;
    if b >= 16 {
      assert ToRadix(b / 16, 16) == [DigitChar(b / 16)];
    } else {
      assert DigitChar(0) == '0';
    }
  }

  /** `hashArray.map(...).join("")`: two lower-case digits per byte. */
  function Hex(bytes: seq<Byte>): (r: string)
    ensures |r| == 2 * |bytes|
    ensures HexDigits(r)
  {
    if bytes == [] then "" else
      var head, tail := ByteHex(bytes[0]), Hex(bytes[1..]);
      HexDigitsConcat(head, tail);
      head + tail
  }

  /** Text made of lower-case hexadecimal digits. */
  predicate HexDigits(s: string) {
    forall i :: 0 <= i < |s| ==> IsDigit(s[i], 16)
  }

  /** Two digits in front of digits are digits. */
  lemma HexDigitsConcat(a: string, b: string)
    requires |a| == 2 && IsDigit(a[0], 16) && IsDigit(a[1], 16) && HexDigits(b)
    ensures HexDigits(a + b)
  {
    forall i | 0 <= i < |a + b| ensures IsDigit((a + b)[i], 16) {
      if i >= 2 {
        assert (a + b)[i] == b[i - 2];
      }
    }
  }

  /** Reads two hexadecimal digits per byte. */
  function Unhex(s: string): seq<Byte> {
    if |s| < 2 then []
    else
      [DigitValue(s[0]) * 16 + DigitValue(s[1])] + Unhex(s[2..])
  }

  /** Reading a text reads its first two digits as one byte, then the rest. */
  lemma UnhexPair(a: string, rest: string)
    requires |a| == 2
    ensures Unhex(a + rest) == [DigitValue(a[0]) * 16 + DigitValue(a[1])] + Unhex(rest)
  {
    var s := a + rest;
    assert s[0] == a[0] && s[1] == a[1] && s[2..] == rest;
  }

  /** Reading the digits back gives the bytes: the hexadecimal text determines the digest. */
  lemma {:induction false} HexRoundTrip(bytes: seq<Byte>)
    ensures Unhex(Hex(bytes)) == bytes
    decreases |bytes|
  {
    if bytes != [] {
      var rest := bytes[1..];
      HexRoundTrip(rest);
      var head, tail := ByteHex(bytes[0]), Hex(rest);
      UnhexPair(head, tail);
      assert Hex(bytes) == head + tail;
      assert bytes == [bytes[0]] + rest;
    }
  }

  /** Two digests with the same hexadecimal text are the same digest. */
  lemma HexInjective(a: seq<Byte>, b: seq<Byte>)
    requires Hex(a) == Hex(b)
    ensures a == b
  {
    HexRoundTrip(a);
    HexRoundTrip(b);
  }

  /** What the page shows: nothing but "404" when the admin page is disabled. */
  datatype View = NotFound | LockScreen | Panel

  function ViewOf(enabled: bool, isUnlocked: bool): (v: View)
    ensures !enabled ==> v == NotFound
    ensures v == Panel <==> enabled && isUnlocked
  {
    if !enabled then NotFound else if !isUnlocked then LockScreen else Panel
  }

  /** The toast an unlock attempt ends with. */
  datatype Outcome = BlankRejected | Granted | Invalid | Failed

  class Admin {
    var passphrase: string
    var isUnlocked: bool
    var settingsOpen: bool

    constructor ()
      ensures passphrase == "" && !isUnlocked && !settingsOpen
    {
      passphrase := "";
      isUnlocked := false;
      settingsOpen := false;
    }

    /** The mount effect: the page opens unlocked when the flag is stored as "true". */
    method Mount(storage: LocalSettings.Storage)
      modifies this`isUnlocked
      ensures LocalSettings.AdminUnlocked(true, storage.items) ==> isUnlocked
      ensures !LocalSettings.AdminUnlocked(true, storage.items) ==> isUnlocked == old(isUnlocked)
    {
      if LocalSettings.AdminFlagKey in storage.items && storage.items[LocalSettings.AdminFlagKey] == "true" {
        isUnlocked := true;
      }
    }

    /**
     * `handleUnlock`: a blank passphrase is refused before any hashing and
     * is kept. Otherwise the page unlocks, and stores the flag, exactly when
     * the digest's hexadecimal text equals the configured hash; a digest
     * or a storage write that throws ends in the failure toast without
     * unlocking. The passphrase is cleared after every such attempt.
     */
    method HandleUnlock(encode: string -> seq<Byte>, digest: seq<Byte> -> Option<seq<Byte>>,
                        passHash: Option<string>, storage: LocalSettings.Storage) returns (outcome: Outcome)
      modifies this`passphrase, this`isUnlocked, storage`items
      ensures Trim(old(passphrase)) == "" ==>
        && outcome == BlankRejected && passphrase == old(passphrase)
        && isUnlocked == old(isUnlocked) && storage.items == old(storage.items)
      ensures Trim(old(passphrase)) != "" ==> passphrase == ""
      ensures var d := digest(encode(old(passphrase)));
        var matches := Trim(old(passphrase)) != "" && d.Some? && passHash == Some(Hex(d.value));
        && (outcome == Granted <==> matches && storage.available)
        && (outcome == Granted ==> isUnlocked && storage.items == old(storage.items)[LocalSettings.AdminFlagKey := "true"])
        && (outcome != Granted ==> isUnlocked == old(isUnlocked) && storage.items == old(storage.items))
        && (outcome == Invalid <==> Trim(old(passphrase)) != "" && d.Some? && passHash != Some(Hex(d.value)))
    {
      if Trim(passphrase) == "" {
        return BlankRejected;
      }
      var d := digest(encode(passphrase));
      if d.None? {
        outcome := Failed;
      } else {
        var hashHex := Hex(d.value);
        if passHash == Some(hashHex) {
          if storage.available {
            storage.items := storage.items[LocalSettings.AdminFlagKey := "true"];
            isUnlocked := true;
            outcome := Granted;
          } else {
            outcome := Failed;
          }
        } else {
          outcome := Invalid;
        }
      }
      passphrase := "";
    }

    /** `handleLock`: the flag is removed, and the page locks and closes the settings. */
    method HandleLock(storage: LocalSettings.Storage)
      modifies this`isUnlocked, this`settingsOpen, storage`items
      ensures storage.available ==>
        && storage.items == old(storage.items) - {LocalSettings.AdminFlagKey}
        && !isUnlocked && !settingsOpen
      ensures !storage.available ==>
        && storage.items == old(storage.items) && isUnlocked == old(isUnlocked) && settingsOpen == old(settingsOpen)
    {
      if storage.available {
        storage.items := storage.items - {LocalSettings.AdminFlagKey};
        isUnlocked := false;
        settingsOpen := false;
      }
    }
  }

  /**
   * After a granted unlock the settings hook reports the admin as unlocked
   * in a browser; after a lock it does not.
   */
  lemma UnlockThenLock(items: map<string, string>)
    ensures LocalSettings.AdminUnlocked(true, items[LocalSettings.AdminFlagKey := "true"])
    ensures !LocalSettings.AdminUnlocked(true, items - {LocalSettings.AdminFlagKey})
  {
  }

  /** A configured hash with a character that is not a lower-case hexadecimal digit never matches. */
  lemma ForeignHashNeverMatches(bytes: seq<Byte>, passHash: string, k: nat)
    requires k < |passHash| && !IsDigit(passHash[k], 16)
    ensures Hex(bytes) != passHash
  {
  }
}
