/**
 * The launcher's guard on card links (`isValidUrl`): a link is rendered only
 * when, lower-cased and trimmed, it starts with `http://`, `https://` or `/`;
 * the `javascript:`, `data:`, `vbscript:` and `file:` schemes are refused first.
 */
module UrlValidation {
  import opened Wrappers
  import opened JsStrings

  const DangerousProtocols: seq<string> := ["javascript:", "data:", "vbscript:", "file:"]
  const AllowedPrefixes: seq<string> := ["http://", "https://", "/"]

  /** `url.toLowerCase().trim()`. */
  function Normalize(url: string): string {
    Trim(ToLower(url))
  }

  /** `prefixes.some(p => s.startsWith(p))`. */
  function StartsWithAny(s: string, prefixes: seq<string>): (b: bool)
    ensures b <==> exists i :: 0 <= i < |prefixes| && StartsWith(s, prefixes[i])
  {
    if prefixes == [] then false
    else StartsWith(s, prefixes[0]) || StartsWithAny(s, prefixes[1..])
  }

  /**
   * `isValidUrl(url)`. `None` stands for a value that is not a string
   * (`undefined`, `null`, a number, ...).
   */
  function IsValidUrl(url: Option<string>): (ok: bool)
    ensures ok <==> url.Some? && url.value != "" && StartsWithAny(Normalize(url.value), AllowedPrefixes)
  {
    match url
    case None => false
    case Some(s) =>
      if s == "" then false
      else
        var lowerUrl := Normalize(s);
        if StartsWithAny(lowerUrl, DangerousProtocols) then
          assert !StartsWithAny(lowerUrl, AllowedPrefixes) by { DenyAndAllowDisjoint(lowerUrl); }
          false
        else StartsWithAny(lowerUrl, AllowedPrefixes)
  }

  /** No string starts both with a refused scheme and with an allowed prefix. */
  lemma DenyAndAllowDisjoint(s: string)
    ensures StartsWithAny(s, DangerousProtocols) ==> !StartsWithAny(s, AllowedPrefixes)
  {
    if StartsWithAny(s, DangerousProtocols) {
      var i :| 0 <= i < |DangerousProtocols| && StartsWith(s, DangerousProtocols[i]);
      assert s[0] == DangerousProtocols[i][0];
      assert s[0] in {'j', 'd', 'v', 'f'};
      forall k | 0 <= k < |AllowedPrefixes|
        ensures !StartsWith(s, AllowedPrefixes[k])
      {
        assert AllowedPrefixes[k][0] in {'h', '/'};
      }
    }
  }

  /** A link whose normalised form starts with a refused scheme is never valid, whatever its case or padding. */
  lemma DangerousAlwaysRejected(s: string, i: nat)
    requires i < |DangerousProtocols| && StartsWith(Normalize(s), DangerousProtocols[i])
    ensures !IsValidUrl(Some(s))
  {
    DenyAndAllowDisjoint(Normalize(s));
  }

  /** A link whose normalised form starts with an allowed prefix is valid. */
  lemma AllowedAccepted(s: string, i: nat)
    requires s != "" && i < |AllowedPrefixes| && StartsWith(Normalize(s), AllowedPrefixes[i])
    ensures IsValidUrl(Some(s))
  {
    assert StartsWithAny(Normalize(s), AllowedPrefixes);
  }

  /** Leading white space does not change the verdict. */
  lemma PaddingIgnored(s: string, pad: string)
    requires forall i :: 0 <= i < |pad| ==> IsJsWhitespace(pad[i])
    ensures IsValidUrl(Some(pad + s)) == IsValidUrl(Some(s))
  {
    if s == "" {
      assert pad + s == pad;
      assert Normalize(pad) == "" by {
        assert forall i :: 0 <= i < |pad| ==> ToLower(pad)[i] == pad[i];
        TrimStartSkips(ToLower(pad), "");
        assert ToLower(pad) + "" == ToLower(pad);
      }
    }
    assert ToLower(pad + s) == ToLower(pad) + ToLower(s) by {
      ToLowerConcat(pad, s);
    }
    assert TrimStart(ToLower(pad) + ToLower(s)) == TrimStart(ToLower(s)) by {
      TrimStartSkips(ToLower(pad), ToLower(s));
    }
  }

  lemma {:induction false} ToLowerConcat(a: string, b: string)
    ensures ToLower(a + b) == ToLower(a) + ToLower(b)
  {
    assert |ToLower(a + b)| == |ToLower(a) + ToLower(b)|;
    forall i | 0 <= i < |a + b|
      ensures ToLower(a + b)[i] == (ToLower(a) + ToLower(b))[i]
    {
    }
  }

  lemma {:induction false} TrimStartSkips(pad: string, s: string)
    requires forall i :: 0 <= i < |pad| ==> IsJsWhitespace(pad[i])
    ensures TrimStart(pad + s) == TrimStart(s)
  {
    if pad != [] {
      assert (pad + s)[1..] == pad[1..] + s;
      TrimStartSkips(pad[1..], s);
    } else {
      assert pad + s == s;
    }
  }

  /** A lower-case link with no white space at either end is its own normal form. */
  lemma NormalizeKeeps(s: string)
    requires s != [] && !IsJsWhitespace(s[0]) && !IsJsWhitespace(s[|s| - 1])
    requires forall i :: 0 <= i < |s| ==> !('A' <= s[i] <= 'Z')
    ensures Normalize(s) == s
  {
    assert ToLower(s) == s;
  }

  lemma StartsWithConcat(p: string, r: string)
    ensures StartsWith(p + r, p)
  {
    assert (p + r)[..|p|] == p;
  }

  lemma JavascriptPrefix()
    ensures StartsWith("javascript:x", DangerousProtocols[0])
  {
    assert "javascript:x" == DangerousProtocols[0] + "x";
    StartsWithConcat(DangerousProtocols[0], "x");
  }

  lemma HttpsPrefix()
    ensures StartsWith("https://b", AllowedPrefixes[1])
  {
    assert "https://b" == AllowedPrefixes[1] + "b";
    StartsWithConcat(AllowedPrefixes[1], "b");
  }

  lemma JavascriptNormal()
    ensures Normalize("javascript:x") == "javascript:x"
  {
    NormalizeKeeps("javascript:x");
  }

  lemma JavascriptNormalPrefix()
    ensures StartsWith(Normalize("javascript:x"), DangerousProtocols[0])
  {
    JavascriptNormal();
    JavascriptPrefix();
  }

  /** A `javascript:` link is refused. */
  lemma JavascriptRejected()
    ensures !IsValidUrl(Some("javascript:x"))
  {
    JavascriptNormalPrefix();
    DangerousAlwaysRejected("javascript:x", 0);
  }

  /** An `https://` link is accepted. */
  lemma HttpsAccepted()
    ensures IsValidUrl(Some("https://b"))
  {
    HttpsPrefix();
    NormalizeKeeps("https://b");
    AllowedAccepted("https://b", 1);
  }
}
