/** The older, unrouted mint page: connect, mint with a three-way
    classification of failures, and the preview address derived from the
    token's metadata URI. */
module LegacyMintPage {
  import opened Wrappers
  import opened Strings

  const AlreadyClaimedReason := "Already claimed"
  const CallExceptionCode := "CALL_EXCEPTION"

  /** The status line; `Message` gives its exact text. */
  datatype Status = NoStatus | Minting | MintSucceeded | AlreadyMinted | OutsideWindow | MintFailed

  /** The status line is empty only before the first mint attempt. */
  function Message(s: Status): (text: string)
    ensures text == "" <==> s == NoStatus
  {
    match s
    case NoStatus => ""
    case Minting => "⏳ Minting in progress..."
    case MintSucceeded => "✅ Mint successful! Here's your POAP:"
    case AlreadyMinted => "⚠️ You've already minted this POAP."
    case OutsideWindow => "❌ Minting failed — check if you're in the allowed window."
    case MintFailed => "❌ Mint failed. Please try again or check console for details."
  }

  /** The outcome of the try block (`mint()`, `wait()`, `tokenURI(0)`): all
      succeeded and `tokenURI(0)` returned `uri`, or the first one threw an
      error with these `reason` and `code`. */
  datatype MintOutcome = Confirmed(uri: string) | Threw(reason: Option<string>, code: Option<string>)

  /** The three ways the catch block reads an error. */
  datatype Failure = AlreadyClaimed | WindowClosed | Other

  /** The catch-block classification: the reason "Already claimed" wins over any
      code; otherwise the code CALL_EXCEPTION means the mint window; anything
      else is a generic failure. */
  function Classify(reason: Option<string>, code: Option<string>): (f: Failure)
    ensures f == AlreadyClaimed <==> reason == Some(AlreadyClaimedReason)
    ensures f == WindowClosed <==> reason != Some(AlreadyClaimedReason) && code == Some(CallExceptionCode)
    ensures f == Other <==> reason != Some(AlreadyClaimedReason) && code != Some(CallExceptionCode)
  {
    if reason == Some(AlreadyClaimedReason) then AlreadyClaimed
    else if code == Some(CallExceptionCode) then WindowClosed
    else Other
  }

  /** The iframe address: the first ".json" becomes ".html", then the first
      "metadata/" becomes "preview/". */
  function PreviewUrl(tokenUri: string): (url: string)
    ensures (forall j :: !OccursAt(tokenUri, ".json", j)) && (forall j :: !OccursAt(tokenUri, "metadata/", j)) ==>
      url == tokenUri
  {
    ReplaceFirst(ReplaceFirst(tokenUri, ".json", ".html"), "metadata/", "preview/")
  }

  /** A preview path has the ".html" extension where the metadata path had ".json":
      replacing the first ".json" in `uri` puts ".html" at the same index. */
  lemma PreviewExtension(uri: string, i: nat)
    requires OccursAt(uri, ".json", i) && forall j :: 0 <= j < i ==> !OccursAt(uri, ".json", j)
    ensures var r := ReplaceFirst(uri, ".json", ".html");
      |r| == |uri| && r[..i] == uri[..i] && r[i..i + 5] == ".html" && r[i + 5..] == uri[i + 5..]
  {
  }

  /** The first ".json" of `p + "metadata/" + name + ".json"` is the final one. */
  lemma ReplaceFinalJson(p: string, name: string)
    requires forall j :: !OccursAt(p, ".json", j)
    requires '.' !in name
    ensures ReplaceFirst(p + "metadata/" + name + ".json", ".json", ".html") == p + "metadata/" + name + ".html"
  {
    var u := p + "metadata/" + name + ".json";
    var last := |p| + 9 + |name|;
    assert u[last..last + 5] == ".json";
    forall j | 0 <= j < last ensures !OccursAt(u, ".json", j) {
      NoEarlyJson(p, name, j);
    }
    assert u[..last] == p + "metadata/" + name;
    assert u[last + 5..] == [];
  }

  lemma NoEarlyJson(p: string, name: string, j: int)
    requires forall j :: !OccursAt(p, ".json", j)
    requires '.' !in name
    requires 0 <= j < |p| + 9 + |name|
    ensures !OccursAt(p + "metadata/" + name + ".json", ".json", j)
  {
    var u := p + "metadata/" + name + ".json";
    if j + 5 <= |p| {
      assert u[j..j + 5] == p[j..j + 5];
      assert !OccursAt(p, ".json", j);
    } else if j < |p| {
      assert u[|p|] == 'm';
      OccursAtIndex(u, ".json", j, |p| - j);
    } else if j < |p| + 9 {
      assert u[j] == "metadata/"[j - |p|];
      OccursAtIndex(u, ".json", j, 0);
    } else {
      assert u[j] == name[j - |p| - 9];
      OccursAtIndex(u, ".json", j, 0);
    }
  }

  /** The first "metadata/" of `p + "metadata/" + rest` follows `p` when `p` holds none. */
  lemma ReplaceMetadataAfterPrefix(p: string, rest: string)
    requires forall j :: !OccursAt(p, "metadata/", j)
    ensures ReplaceFirst(p + "metadata/" + rest, "metadata/", "preview/") == p + "preview/" + rest
  {
    var v := p + "metadata/" + rest;
    assert v[|p|..|p| + 9] == "metadata/";
    forall j | 0 <= j < |p| ensures !OccursAt(v, "metadata/", j) {
      if j + 9 <= |p| {
        assert v[j..j + 9] == p[j..j + 9];
        assert !OccursAt(p, "metadata/", j);
      } else {
        assert v[|p|] == 'm';
        OccursAtIndex(v, "metadata/", j, |p| - j);
      }
    }
    assert v[..|p|] == p;
    assert v[|p| + 9..] == rest;
  }

  /** A token URI of the usual shape `p + "metadata/" + name + ".json"` maps to
      `p + "preview/" + name + ".html"`, provided the prefix holds neither
      pattern and the file name has no dot. */
  lemma PreviewOfMetadataUri(p: string, name: string)
    requires forall j :: !OccursAt(p, ".json", j)
    requires forall j :: !OccursAt(p, "metadata/", j)
    requires '.' !in name
    ensures PreviewUrl(p + "metadata/" + name + ".json") == p + "preview/" + name + ".html"
  {
    ReplaceFinalJson(p, name);
    assert p + "metadata/" + name + ".html" == p + "metadata/" + (name + ".html");
    ReplaceMetadataAfterPrefix(p, name + ".html");
  }

  class Page {
    var hasSigner: bool
    var txStatus: Status
    var tokenURI: Option<string>
    var hasMinted: bool

    constructor()
      ensures !hasSigner && txStatus == NoStatus && tokenURI == None && !hasMinted
    {
      hasSigner, txStatus, tokenURI, hasMinted := false, NoStatus, None, false;
    }

    /** `connectWallet`: a signer only when a provider is injected and grants
        one; otherwise nothing changes (a refused request is not caught here
        and leaves the state as it was). */
    method ConnectWallet(providerInjected: bool, signerGranted: bool)
      modifies this
      ensures hasSigner == (old(hasSigner) || (providerInjected && signerGranted))
      ensures txStatus == old(txStatus) && tokenURI == old(tokenURI) && hasMinted == old(hasMinted)
    {
      if providerInjected {
        if signerGranted {
          hasSigner := true;
        }
      }
    }

    /** The synchronous start of `mintPOAP`: without a signer nothing
        changes; otherwise the in-progress message is shown and the mint is
        sent. */
    method BeginMint() returns (sent: bool)
      modifies this`txStatus
      ensures sent <==> hasSigner
      ensures sent ==> txStatus == Minting
      ensures !sent ==> txStatus == old(txStatus)
    {
      sent := hasSigner;
      if sent {
        txStatus := Minting;
      }
    }

    /** The rest of `mintPOAP`, once the try block settles. Success stores the
        URI, sets `hasMinted` and so shows the preview of a non-empty URI. An
        "Already claimed" failure sets `hasMinted` with a warning and starts
        re-reading token 0 (it does not mint again). A window or generic
        failure only sets its message. */
    method FinishMint(outcome: MintOutcome) returns (rereading: bool)
      requires hasSigner
      modifies this`txStatus, this`tokenURI, this`hasMinted
      ensures rereading <==> outcome.Threw? && Classify(outcome.reason, outcome.code) == AlreadyClaimed
      ensures outcome.Confirmed? ==> txStatus == MintSucceeded && tokenURI == Some(outcome.uri) && hasMinted
      ensures outcome.Confirmed? && outcome.uri != "" ==> PreviewShown() == Some(PreviewUrl(outcome.uri))
      ensures outcome.Threw? ==> tokenURI == old(tokenURI)
      ensures outcome.Threw? ==>
        match Classify(outcome.reason, outcome.code)
        case AlreadyClaimed => txStatus == AlreadyMinted && hasMinted
        case WindowClosed => txStatus == OutsideWindow && hasMinted == old(hasMinted)
        case Other => txStatus == MintFailed && hasMinted == old(hasMinted)
    {
      rereading := false;
      match outcome {
        case Confirmed(uri) =>
          tokenURI := Some(uri);
          hasMinted := true;
          txStatus := MintSucceeded;
        case Threw(reason, code) =>
          if reason == Some(AlreadyClaimedReason) {
            txStatus := AlreadyMinted;
            hasMinted := true;
            rereading := true;
          } else if code == Some(CallExceptionCode) {
            txStatus := OutsideWindow;
          } else {
            txStatus := MintFailed;
          }
      }
    }

    /** The re-read of token 0 in the "Already claimed" branch settles: a
        returned URI is stored, and with `hasMinted` already set its preview
        shows; a call that throws escapes the handler and changes nothing. */
    method FinishReread(uri: Option<string>)
      modifies this`tokenURI
      ensures uri.Some? ==> tokenURI == uri
      ensures uri.None? ==> tokenURI == old(tokenURI)
      ensures hasMinted && uri.Some? && uri.value != "" ==> PreviewShown() == Some(PreviewUrl(uri.value))
    {
      if uri.Some? {
        tokenURI := uri;
      }
    }

    /** The preview iframe: shown once minted and only for a non-empty URI. */
    function PreviewShown(): Option<string>
      reads this
    {
      if hasMinted && tokenURI.Some? && tokenURI.value != "" then Some(PreviewUrl(tokenURI.value)) else None
    }
  }
}
