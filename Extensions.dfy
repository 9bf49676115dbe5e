/** `SafeAreaExtensions.GetSafeAreaInfo`: the inset label the host app writes for
    the UI tests, `L:{l},T:{t},R:{r},B:{b},KeyboardHeight:{h}`. The platform's
    inset read is an input here. */
module Extensions {
  import opened Decimal

  /** The compile-time platform: Android, iOS or Mac Catalyst, or any other. */
  datatype Platform = Android | Apple | OtherPlatform

  /** What the platform inset query returned: nothing (no window, no insets, or
      an exception swallowed by `catch {}`), or the system-bar insets and the
      bottom inset of the on-screen keyboard (IME), already as integers. */
  datatype InsetRead =
    | Unreadable
    | Read(left: int, top: int, right: int, bottom: int, imeBottom: int)

  /** The label text for given values, fields in this order, no spaces: a text
      of five fields that starts with `L:` and holds no space. */
  function Label(l: int, t: int, r: int, b: int, h: int): (s: string)
    ensures |s| > 2 && s[..2] == "L:"
    ensures ' ' !in s
  {
    LabelShape(IntToString(l), IntToString(t), IntToString(r), IntToString(b), IntToString(h));
    "L:" + IntToString(l) + ",T:" + IntToString(t) + ",R:" + IntToString(r) +
    ",B:" + IntToString(b) + ",KeyboardHeight:" + IntToString(h)
  }

  /** The label's frame around any five space-free field texts. */
  lemma LabelShape(a: string, b: string, c: string, d: string, e: string)
    requires ' ' !in a && ' ' !in b && ' ' !in c && ' ' !in d && ' ' !in e
    ensures var s := "L:" + a + ",T:" + b + ",R:" + c + ",B:" + d + ",KeyboardHeight:" + e;
      |s| > 2 && s[..2] == "L:" && ' ' !in s
  {
    var s := "L:" + a + ",T:" + b + ",R:" + c + ",B:" + d + ",KeyboardHeight:" + e;
    assert s[..2] == "L:";
  }

  /** The fallback text written when the insets cannot be read. */
  const Fallback: string := "L:0,T:0,R:0,B:0,KeyboardHeight:0"

  /** The fallback text is the label of five zeros. */
  lemma FallbackIsZeroLabel()
    ensures Fallback == Label(0, 0, 0, 0, 0)
  {
    assert NatToString(0) == "0";
    assert IntToString(0) == "0";
    ZeroFields("0");
  }

  /** The label frame around five copies of the text "0". */
  lemma ZeroFields(z: string)
    requires z == "0"
    ensures "L:" + z + ",T:" + z + ",R:" + z + ",B:" + z + ",KeyboardHeight:" + z == Fallback
  {
  }

  /** `GetSafeAreaInfo`: on Android the system-bar insets and the keyboard's
      bottom inset; on iOS and Mac Catalyst the safe-area insets and a keyboard
      height of 0; the all-zero fallback when nothing could be read. Every text
      it writes is a five-field label, and off Android its keyboard height is 0. */
  function GetSafeAreaInfo(platform: Platform, read: InsetRead): (s: string)
    ensures exists l, t, r, b, h :: s == Label(l, t, r, b, h)
    ensures !platform.Android? ==> exists l, t, r, b :: s == Label(l, t, r, b, 0)
  {
    if read.Unreadable? then FallbackIsZeroLabel(); Fallback
    else match platform
      case Android => Label(read.left, read.top, read.right, read.bottom, read.imeBottom)
      case Apple => Label(read.left, read.top, read.right, read.bottom, 0)
      case OtherPlatform => FallbackIsZeroLabel(); Fallback
  }
}
