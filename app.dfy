/** The two view helpers of the analysis page: the colour of the decision
    outlook and the preview of the extracted deck text. */
module App {
  import opened Wrappers
  import opened Builtins

  /** The colour rule: "positive" wins over "negative"; matching ignores case. */
  function ColorOf(outlook: string): (color: string)
    ensures color == "green" <==> Contains(Lower(outlook), "positive")
    ensures color == "red" <==> !Contains(Lower(outlook), "positive") && Contains(Lower(outlook), "negative")
    ensures color == "gray" <==> !Contains(Lower(outlook), "positive") && !Contains(Lower(outlook), "negative")
  {
    var o := Lower(outlook);
    if Contains(o, "positive") then "green" else if Contains(o, "negative") then "red" else "gray"
  }

  /** Lines 97-100 as written: `.lower()` is called on the outlook, which the
      summary record lets be `None`; then `None` raises. */
  method OutlookColorAsWritten(outlook: Option<string>) returns (r: Result<string, string>)
    ensures outlook.None? ==> r == Err("'NoneType' object has no attribute 'lower'")
    ensures outlook.Some? ==> r == Ok(ColorOf(outlook.value))
  {
    if outlook.None? {
      return Err("'NoneType' object has no attribute 'lower'");
    }
    var o := Lower(outlook.value);
    var color := "gray";
    if Contains(o, "positive") {
      color := "green";
    } else if Contains(o, "negative") {
      color := "red";
    }
    return Ok(color);
  }

  /** A summary whose outlook is `None` stops the page. */
  method NoneOutlookRaises() returns (r: Result<string, string>)
    ensures r.Err?
  {
    r := OutlookColorAsWritten(None);
  }

  /** The colour with a missing outlook shown as neutral, gray. */
  method OutlookColor(outlook: Option<string>) returns (color: string)
    ensures outlook.None? ==> color == "gray"
    ensures outlook.Some? ==> color == ColorOf(outlook.value)
  {
    color := "gray";
    if outlook.Some? {
      var o := Lower(outlook.value);
      if Contains(o, "positive") {
        color := "green";
      } else if Contains(o, "negative") {
        color := "red";
      }
    }
  }

  lemma LowerUpperChar(c: char)
    ensures LowerChar(UpperChar(c)) == LowerChar(c)
    ensures LowerChar(LowerChar(c)) == LowerChar(c)
  {
  }

  /** Lower-casing first does not change the colour: `lower()` is idempotent. */
  lemma ColorIgnoresCase(outlook: string)
    ensures ColorOf(Lower(outlook)) == ColorOf(outlook)
  {
    forall i | 0 <= i < |outlook| ensures Lower(Lower(outlook))[i] == Lower(outlook)[i] {
      LowerUpperChar(outlook[i]);
    }
    assert Lower(Lower(outlook)) == Lower(outlook);
  }

  /** An ASCII outlook and its upper-cased form get the same colour. Outside
      ASCII, Python's `upper()` maps some letters to ASCII ones (U+017F to `S`),
      so the claim is made for ASCII text only. */
  lemma AsciiColorIgnoresUpperCase(outlook: string)
    requires forall i :: 0 <= i < |outlook| ==> outlook[i] as int < 128
    ensures ColorOf(Upper(outlook)) == ColorOf(outlook)
  {
    forall i | 0 <= i < |outlook| ensures Lower(Upper(outlook))[i] == Lower(outlook)[i] {
      LowerUpperChar(outlook[i]);
    }
    assert Lower(Upper(outlook)) == Lower(outlook);
  }

  /** An outlook that mentions both words is green. */
  lemma MixedOutlookIsGreen(a: string, b: string, c: string)
    ensures ColorOf(a + "Positive" + b + "negative" + c) == "green"
  {
    var s := a + "Positive" + b + "negative" + c;
    var i := |a|;
    assert s[i..i + 8] == "Positive";
    assert Lower(s)[i..i + 8] == "positive" by {
      forall k | 0 <= k < 8 ensures Lower(s)[i + k] == "positive"[k] {
        assert s[i + k] == "Positive"[k];
      }
    }
    assert OccursAt(Lower(s), "positive", i);
  }

  /** `raw_text[:500] + "..." if len(raw_text) > 500 else raw_text`. */
  function DescriptionPreview(rawText: string): (p: string)
    ensures |rawText| <= 500 ==> p == rawText
    ensures |rawText| > 500 ==> |p| == 503 && p[..500] == rawText[..500] && p[500..] == "..."
  {
    CutWithMarker(rawText, 500, "...")
  }

  /** The preview is never longer than 503 characters and always starts with
      the leading part of the text. */
  lemma PreviewBound(rawText: string)
    ensures |DescriptionPreview(rawText)| <= 503
    ensures var n := Min(500, |rawText|); DescriptionPreview(rawText)[..n] == rawText[..n]
  {
  }
}
