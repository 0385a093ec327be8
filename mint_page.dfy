/** The routed mint page: arrival detection, the four engagement actions
    (connect, mint, check eligibility, claim), the step indicator derived from
    the session flags, and the analytics writes it makes. Every external call
    is an outcome passed in by the caller. */
module MintPage {
  import opened Wrappers
  import opened UrlQuery
  import Analytics

  const MobileBreakpoint := 768
  const MetaMaskDappLink := "https://metamask.app.link/dapp/mugen-poap-mint.vercel.app"
  /** The fixed metadata document fetched after a confirmed mint (token 0). */
  const MetadataPath := "/metadata/0.json"

  /** The status line (`txStatus`); `Message` gives its exact text. */
  datatype Status =
    | NoStatus | WalletConnected | WalletFailed | Minting | MintSucceeded | MintFailed
    | Checking | Eligible | NotEligible | Unverified | Claiming | Claimed | ClaimFailed

  /** The status card renders only for a non-empty text, that is for any
      status but the initial one. */
  function Message(s: Status): (text: string)
    ensures text == "" <==> s == NoStatus
  {
    match s
    case NoStatus => ""
    case WalletConnected => "🎉 Wallet connected! Ready to mint your POAP."
    case WalletFailed => "❌ Failed to connect wallet. Please try again."
    case Minting => "⏳ Minting in progress..."
    case MintSucceeded => "✅ Mint successful! Here's your POAP:"
    case MintFailed => "❌ Mint failed. Please try again."
    case Checking => "🔍 Checking your Azuki holdings..."
    case Eligible => "🎉 You're eligible for the special SBT!"
    case NotEligible => "ℹ️ You need at least 1 Azuki NFT to be eligible for the SBT."
    case Unverified => "⚠️ Could not verify Azuki holdings. You can still try to claim the SBT."
    case Claiming => "⏳ Claiming your SBT..."
    case Claimed => "✅ SBT successfully claimed and added to your wallet!"
    case ClaimFailed => "❌ SBT claim failed. You may not be eligible or have already claimed."
  }

  /** A transaction sent and awaited: confirmed, or `send`/`wait` threw. */
  datatype TxOutcome = Confirmed | Failed

  /** The fetched metadata document's `image` and `animation_url`. */
  datatype Metadata = Metadata(image: Option<string>, animationUrl: Option<string>)

  /** How the visitor arrived: by QR scan (with its event) or not. */
  datatype Arrival = Arrival(isQRMode: bool, eventId: string)

  /** The mount-time check of the query string: QR mode iff `qr` is exactly
      `mobile` and `eventId` is present and non-empty; the event id is kept
      only then. */
  function DetectArrival(search: string): (a: Arrival)
    ensures a.isQRMode <==>
      Get(Params(search), "qr") == Some("mobile") && Get(Params(search), "eventId").Some? &&
      Get(Params(search), "eventId").value != ""
    ensures a.isQRMode ==> a.eventId == Get(Params(search), "eventId").value
    ensures !a.isQRMode ==> a.eventId == ""
  {
    var params := Params(search);
    match (Get(params, "qr"), Get(params, "eventId"))
    case (Some(qr), Some(id)) => if qr == "mobile" && id != "" then Arrival(true, id) else Arrival(false, "")
    case _ => Arrival(false, "")
  }

  /** The step the indicator shows for a set of flags, starting from 1. */
  function StepFor(hasSigner: bool, hasMinted: bool, airdropped: bool): (step: int)
    ensures 1 <= step <= 4
    ensures step == 4 <==> airdropped
    ensures step >= 3 <==> airdropped || hasMinted
    ensures step >= 2 <==> airdropped || hasMinted || hasSigner
  {
    if airdropped then 4 else if hasMinted then 3 else if hasSigner then 2 else 1
  }

  /** Flags only ever switch on, so the step never goes back. */
  lemma StepMonotone(s0: bool, m0: bool, a0: bool, s1: bool, m1: bool, a1: bool)
    requires (s0 ==> s1) && (m0 ==> m1) && (a0 ==> a1)
    ensures StepFor(s0, m0, a0) <= StepFor(s1, m1, a1)
  {
  }

  /** The deep link opened when no wallet provider is injected on a phone:
      the wallet app's dapp browser at this site, same path and query. */
  function DeepLink(pathname: string, search: string): (url: string)
    ensures |url| == |MetaMaskDappLink| + |pathname| + |search|
    ensures url[..|MetaMaskDappLink|] == MetaMaskDappLink
    ensures url[|MetaMaskDappLink|..|url| - |search|] == pathname
    ensures url[|url| - |search|..] == search
  {
    MetaMaskDappLink + pathname + search
  }

  /** The mutable session state of one mounted page, as a value. */
  datatype Session = Session(
    hasSigner: bool, txStatus: Status, hasMinted: bool,
    imageURL: Option<string>, animationURL: Option<string>,
    showEligibilityFlow: bool, revealScheduled: bool,
    connectedProfiles: bool, isEligible: bool, airdropped: bool,
    isMobile: bool)

  /** The session once the metadata fetch after a confirmed mint settles: the
      metadata's image and animation when the fetch worked (a failed fetch is
      only logged), and the eligibility reveal scheduled in QR mode. Nothing
      else changes. */
  function AfterFetch(s: Session, metadata: Option<Metadata>, qr: bool): (r: Session)
    ensures metadata.Some? ==> r.imageURL == metadata.value.image && r.animationURL == metadata.value.animationUrl
    ensures metadata.None? ==> r.imageURL == s.imageURL && r.animationURL == s.animationURL
    ensures r.revealScheduled <==> s.revealScheduled || qr
    ensures r.(imageURL := s.imageURL, animationURL := s.animationURL, revealScheduled := s.revealScheduled) == s
  {
    match metadata
    case Some(m) =>
      s.(imageURL := m.image, animationURL := m.animationUrl, revealScheduled := s.revealScheduled || qr)
    case None =>
      s.(revealScheduled := s.revealScheduled || qr)
  }

  class Page {
    const store: Analytics.Store

    var hasSigner: bool
    var txStatus: Status
    var hasMinted: bool
    var imageURL: Option<string>
    var animationURL: Option<string>
    var showEligibilityFlow: bool
    /** A 2000 ms timer that will reveal the eligibility flow is pending. */
    var revealScheduled: bool
    var connectedProfiles: bool
    var isEligible: bool
    var airdropped: bool
    /** Set once, by the arrival check at mount. */
    const isQRMode: bool
    const eventId: string
    var currentStep: int
    var isMobile: bool

    function State(): Session
      reads this
    {
      Session(hasSigner, txStatus, hasMinted, imageURL, animationURL, showEligibilityFlow,
              revealScheduled, connectedProfiles, isEligible, airdropped, isMobile)
    }

    /** The step indicator agrees with the flags, and the flags only arise in
        order: nothing is minted, checked or claimed without a signer, and
        eligibility only comes with a completed check. */
    ghost predicate Valid()
      reads this
    {
      && currentStep == StepFor(hasSigner, hasMinted, airdropped)
      && (hasMinted ==> hasSigner)
      && (connectedProfiles ==> hasSigner)
      && (isEligible ==> connectedProfiles)
      && (airdropped ==> hasSigner)
    }

    /** Mounting: arrival detection from the query string, a counted and
        stamped scan in QR mode only, and the mobile check against the width. */
    constructor(store: Analytics.Store, search: string, innerWidth: int, stamp: string)
      modifies store
      ensures Valid() && this.store == store && currentStep == 1
      ensures isQRMode == DetectArrival(search).isQRMode && eventId == DetectArrival(search).eventId
      ensures State() == Session(false, NoStatus, false, None, None, false, false, false, false, false,
                                 innerWidth <= MobileBreakpoint)
      ensures isQRMode ==>
        store.stats == Some(Analytics.Bump(old(store.Read()), Analytics.TotalScans, Analytics.LastActivity, stamp))
      ensures !isQRMode ==> store.stats == old(store.stats)
      ensures store.organizerAuth == old(store.organizerAuth)
    {
      var arrival := DetectArrival(search);
      this.store := store;
      hasSigner, txStatus, hasMinted := false, NoStatus, false;
      imageURL, animationURL := None, None;
      showEligibilityFlow, revealScheduled := false, false;
      connectedProfiles, isEligible, airdropped := false, false, false;
      isQRMode, eventId := arrival.isQRMode, arrival.eventId;
      currentStep := 1;
      isMobile := false;
      new;
      if isQRMode {
        store.Increment(Analytics.TotalScans, Analytics.LastActivity, stamp);
      }
      isMobile := innerWidth <= MobileBreakpoint;
    }

    /** The resize listener. */
    method Resize(innerWidth: int)
      requires Valid()
      modifies this
      ensures Valid() && currentStep == old(currentStep)
      ensures State() == old(State()).(isMobile := innerWidth <= MobileBreakpoint)
    {
      isMobile := innerWidth <= MobileBreakpoint;
    }

    /** The step effect, run after every render whose flags changed: it raises
        the step to 2, 3 or 4 for the flags set, and leaves it otherwise. */
    method UpdateStep()
      modifies this`currentStep
      ensures currentStep == if airdropped then 4 else if hasMinted then 3 else if hasSigner then 2 else old(currentStep)
      ensures hasSigner ==> currentStep == StepFor(hasSigner, hasMinted, airdropped)
    {
      if hasSigner {
        currentStep := 2;
      }
      if hasMinted {
        currentStep := 3;
      }
      if airdropped {
        currentStep := 4;
      }
    }

    /** `connectWallet`. Without an injected provider nothing changes; in QR or
        mobile mode the wallet app's deep link is launched. With a provider a
        granted signer is stored (with a message in QR mode); a refusal only
        sets the failure message. */
    method ConnectWallet(providerInjected: bool, signerGranted: bool, pathname: string, search: string)
      returns (launched: Option<string>)
      requires Valid()
      modifies this
      ensures Valid() && old(currentStep) <= currentStep
      ensures launched.Some? <==> !providerInjected && (isQRMode || isMobile)
      ensures launched.Some? ==> launched.value == DeepLink(pathname, search)
      ensures !providerInjected ==> State() == old(State())
      ensures providerInjected && signerGranted ==>
        State() == old(State()).(hasSigner := true, txStatus := if isQRMode then WalletConnected else old(txStatus))
      ensures providerInjected && !signerGranted ==> State() == old(State()).(txStatus := WalletFailed)
      ensures store.stats == old(store.stats)
    {
      launched := None;
      if !providerInjected {
        if isQRMode || isMobile {
          launched := Some(DeepLink(pathname, search));
        }
        return;
      }
      if signerGranted {
        hasSigner := true;
        if isQRMode {
          txStatus := WalletConnected;
        }
      } else {
        txStatus := WalletFailed;
      }
      ghost var session := State();
      UpdateStep();
      assert State() == session;
    }

    /** The synchronous start of `mintPOAP`, up to the first `await`: without a
        signer nothing changes; otherwise the in-progress message is shown
        and the transaction is sent. */
    method BeginMint() returns (sent: bool)
      requires Valid()
      modifies this`txStatus
      ensures Valid() && currentStep == old(currentStep)
      ensures sent <==> hasSigner
      ensures sent ==> State() == old(State()).(txStatus := Minting)
      ensures !sent ==> State() == old(State())
    {
      sent := hasSigner;
      if sent {
        txStatus := Minting;
      }
    }

    /** `mintPOAP` once the transaction settles, up to the metadata fetch. A
        failed send or wait only sets the failure message. A confirmed mint
        shows the success message and sets `hasMinted`, which moves the step
        indicator to 3 (or keeps 4), and then the metadata is requested. */
    method FinishMint(tx: TxOutcome) returns (fetching: bool)
      requires Valid() && hasSigner
      modifies this`txStatus, this`hasMinted, this`currentStep
      ensures Valid() && old(currentStep) <= currentStep
      ensures fetching <==> tx.Confirmed?
      ensures tx.Failed? ==> State() == old(State()).(txStatus := MintFailed) && currentStep == old(currentStep)
      ensures tx.Confirmed? ==> State() == old(State()).(txStatus := MintSucceeded, hasMinted := true)
      ensures tx.Confirmed? ==> currentStep == if airdropped then 4 else 3
    {
      match tx {
        case Failed =>
          txStatus := MintFailed;
          fetching := false;
        case Confirmed =>
          txStatus := MintSucceeded;
          hasMinted := true;
          UpdateStep();
          fetching := true;
      }
    }

    /** The rest of `mintPOAP`, once the metadata fetch settles (`None` when
        it threw): the session becomes `AfterFetch` of it, and one mint is
        counted with a `lastActivity` stamp. The fetch is only made after a
        confirmed mint. */
    method FinishFetch(metadata: Option<Metadata>, stamp: string)
      requires Valid() && hasMinted
      modifies this`imageURL, this`animationURL, this`revealScheduled, store
      ensures Valid() && currentStep == old(currentStep)
      ensures State() == AfterFetch(old(State()), metadata, isQRMode)
      ensures store.stats == Some(Analytics.Bump(old(store.Read()), Analytics.TotalMints, Analytics.LastActivity, stamp))
      ensures store.organizerAuth == old(store.organizerAuth)
    {
      if metadata.Some? {
        imageURL := metadata.value.image;
        animationURL := metadata.value.animationUrl;
      }
      ghost var session := State();
      store.Increment(Analytics.TotalMints, Analytics.LastActivity, stamp);
      assert State() == session;
      if isQRMode {
        revealScheduled := true;
      }
    }

    /** The 2000 ms timer scheduled by a QR-mode mint fires. */
    method RevealTimerFires()
      requires Valid() && revealScheduled
      modifies this
      ensures Valid() && currentStep == old(currentStep)
      ensures State() == old(State()).(showEligibilityFlow := true, revealScheduled := false)
    {
      showEligibilityFlow := true;
      revealScheduled := false;
    }

    /** `handleLearnMore`. */
    method LearnMore()
      requires Valid()
      modifies this
      ensures Valid() && currentStep == old(currentStep)
      ensures State() == old(State()).(showEligibilityFlow := true)
    {
      showEligibilityFlow := true;
    }

    /** The start of `checkEligibility`: without a signer nothing happens;
        otherwise, once the address is read, the checking message is shown and
        the score is requested. */
    method BeginCheck() returns (requested: bool)
      requires Valid()
      modifies this`txStatus
      ensures Valid() && currentStep == old(currentStep)
      ensures requested <==> hasSigner
      ensures requested ==> State() == old(State()).(txStatus := Checking)
      ensures !requested ==> State() == old(State())
    {
      requested := hasSigner;
      if requested {
        txStatus := Checking;
      }
    }

    /** The rest of `checkEligibility`, given the held-asset score or `None`
        when the scoring call threw. Both outcomes mark the check done; a
        score of at least 1 makes the visitor eligible; a failed call makes
        them ineligible with a third, distinct message. */
    method FinishCheck(score: Option<real>)
      requires Valid() && hasSigner
      modifies this`connectedProfiles, this`isEligible, this`txStatus
      ensures Valid() && currentStep == old(currentStep)
      ensures score.Some? ==>
        State() == old(State()).(connectedProfiles := true, isEligible := score.value >= 1.0,
                                 txStatus := if score.value >= 1.0 then Eligible else NotEligible)
      ensures score.None? ==>
        State() == old(State()).(connectedProfiles := true, isEligible := false, txStatus := Unverified)
    {
      connectedProfiles := true;
      match score {
        case Some(held) =>
          isEligible := held >= 1.0;
          txStatus := if held >= 1.0 then Eligible else NotEligible;
        case None =>
          isEligible := false;
          txStatus := Unverified;
      }
    }

    /** The start of `handleAirdrop`: without a signer nothing happens;
        otherwise, once the address is read, the claiming message is shown and
        the credential mint is sent. The handler never looks at eligibility. */
    method BeginClaim() returns (sent: bool)
      requires Valid()
      modifies this`txStatus
      ensures Valid() && currentStep == old(currentStep)
      ensures sent <==> hasSigner
      ensures sent ==> State() == old(State()).(txStatus := Claiming)
      ensures !sent ==> State() == old(State())
    {
      sent := hasSigner;
      if sent {
        txStatus := Claiming;
      }
    }

    /** The rest of `handleAirdrop`, once the transaction settles. Only a
        confirmed claim sets `airdropped` (and with it step 4); a failure sets
        the failure message. Returns whether the QR-mode completion notice is
        shown. */
    method FinishClaim(tx: TxOutcome) returns (congratulated: bool)
      requires Valid() && hasSigner
      modifies this`airdropped, this`txStatus, this`currentStep
      ensures Valid() && old(currentStep) <= currentStep
      ensures tx.Confirmed? ==> State() == old(State()).(airdropped := true, txStatus := Claimed) && currentStep == 4
      ensures tx.Failed? ==> State() == old(State()).(txStatus := ClaimFailed) && currentStep == old(currentStep)
      ensures congratulated <==> tx.Confirmed? && isQRMode
    {
      match tx {
        case Confirmed =>
          airdropped := true;
          txStatus := Claimed;
          congratulated := isQRMode;
          UpdateStep();
        case Failed =>
          txStatus := ClaimFailed;
          congratulated := false;
      }
    }

    /** The mobile mint button is not disabled (`disabled={!signer}`), which is
        exactly from step 2 on; from step 3 the minted notice replaces it. */
    function MintEnabled(): (enabled: bool)
      reads this
      requires Valid()
      ensures enabled <==> currentStep >= 2
    {
      hasSigner
    }

    /** The eligibility button (mobile interface) is enabled once minted:
        never before step 3, and always at step 3. (A claim without a mint
        reaches step 4 with the button still disabled.) */
    function CheckEnabled(): (enabled: bool)
      reads this
      requires Valid()
      ensures enabled ==> currentStep >= 3 && hasSigner
      ensures currentStep == 3 ==> enabled
    {
      hasMinted
    }

    /** The claim step (mobile interface) is shown exactly when a check found
        the visitor eligible. */
    function ClaimShownOnMobile(): (shown: bool)
      reads this
      requires Valid()
      ensures shown <==> isEligible
      ensures shown ==> connectedProfiles && hasSigner && currentStep >= 2
    {
      connectedProfiles && isEligible
    }

    /** The claim button (desktop interface) is enabled exactly for an
        eligible visitor before step 4, that is before the claim. */
    function ClaimEnabledOnDesktop(): (enabled: bool)
      reads this
      requires Valid()
      ensures enabled <==> isEligible && currentStep < 4
      ensures enabled ==> connectedProfiles && hasSigner
    {
      !(!isEligible || airdropped)
    }
  }
}
