/**
 * `useContractSwitch.js`: the user's choice between the mock contract and the FHE contract,
 * the automatic fall-back to the mock contract, the persisted preference and the gateway
 * health probe.
 */
module ContractSwitch {
  import opened Wrappers

  /** The value of `localStorage.getItem('contractMode') || 'mock'`. */
  function InitialMode(stored: Option<string>): (mode: string)
    ensures stored.Some? && stored.value != "" ==> mode == stored.value
    ensures stored.None? || stored.value == "" ==> mode == "mock"
  {
    if stored.Some? && stored.value != "" then stored.value else "mock"
  }

  /**
   * The hook's state: `selectedMode`, `isAutoFallback`, and the `contractMode` entry of the
   * browser's storage (`None` when absent).
   */
  datatype SwitchState = SwitchState(selectedMode: string, isAutoFallback: bool, stored: Option<string>)

  /** `switchMode(mode)`: the mode is taken and persisted, and the fall-back flag cleared. */
  function Switched(s: SwitchState, mode: string): (t: SwitchState)
    ensures t.selectedMode == mode && t.stored == Some(mode) && !t.isAutoFallback
  {
    SwitchState(mode, false, Some(mode))
  }

  /**
   * `fallbackToMock()`: in FHE mode, the mode becomes mock and the fall-back flag is set;
   * in any other mode nothing changes. The persisted preference is never written.
   */
  function FellBack(s: SwitchState): (t: SwitchState)
    ensures t.stored == s.stored
    ensures s.selectedMode == "fhe" ==> t.selectedMode == "mock" && t.isAutoFallback
    ensures s.selectedMode != "fhe" ==> t == s
  {
    if s.selectedMode == "fhe" then s.(selectedMode := "mock", isAutoFallback := true) else s
  }

  /** Falling back twice is falling back once, and a fallen-back state is in mock mode. */
  lemma FallbackIdempotent(s: SwitchState)
    ensures FellBack(FellBack(s)) == FellBack(s)
    ensures FellBack(s).selectedMode != "fhe"
  {
  }

  /** The persisted preference only ever changes through `switchMode`, and then to the new mode. */
  lemma OnlySwitchPersists(s: SwitchState, mode: string)
    ensures FellBack(s).stored == s.stored
    ensures Switched(s, mode).stored == Some(mode)
    ensures Switched(FellBack(s), mode) == Switched(s, mode)
  {
  }

  /**
   * After a reload the hook starts from the persisted preference: a fall-back is forgotten
   * and the mode chosen before it comes back, while a switch survives.
   */
  lemma ReloadAfter(s: SwitchState, mode: string)
    requires mode != ""
    ensures InitialMode(Switched(s, mode).stored) == mode
    ensures InitialMode(FellBack(s).stored) == InitialMode(s.stored)
  {
  }

  /** Which hook `activeContract` is. */
  datatype Backend = MockBackend | FheBackend

  /** `activeContract`: the FHE hook exactly in mode `'fhe'`. */
  function ActiveBackend(mode: string): (b: Backend)
    ensures b == FheBackend <==> mode == "fhe"
  {
    if mode == "fhe" then FheBackend else MockBackend
  }

  /** `isFHEMode` and `isMockMode` are never both true, and the FHE hook is active exactly in FHE mode. */
  lemma ModeFlagsExclusive(mode: string)
    ensures !(mode == "fhe" && mode == "mock")
    ensures ActiveBackend(mode) == FheBackend <==> mode == "fhe"
    ensures mode == "mock" ==> ActiveBackend(mode) == MockBackend
  {
  }

  /** The response of the `HEAD` request to the gateway's health endpoint. */
  datatype ProbeReply = Responded(ok: bool) | Unreachable

  const GatewayProbeChainId: int := 11155111

  /** The hook's state, changed in place by its callbacks. */
  class ModeSwitch {
    var selectedMode: string
    var isAutoFallback: bool
    var stored: Option<string>

    function State(): SwitchState
      reads this
    {
      SwitchState(selectedMode, isAutoFallback, stored)
    }

    /** The first render: the stored mode or `'mock'`, no fall-back. */
    constructor(storedMode: Option<string>)
      ensures selectedMode == InitialMode(storedMode) && !isAutoFallback && stored == storedMode
    {
      selectedMode := InitialMode(storedMode);
      isAutoFallback := false;
      stored := storedMode;
    }

    method SwitchMode(mode: string)
      modifies this
      ensures State() == Switched(old(State()), mode)
    {
      selectedMode := mode;
      stored := Some(mode);
      isAutoFallback := false;
    }

    /** `switchToMock()`. */
    method SwitchToMock()
      modifies this
      ensures State() == Switched(old(State()), "mock")
    {
      SwitchMode("mock");
    }

    /** `switchToFHE()`. */
    method SwitchToFhe()
      modifies this
      ensures State() == Switched(old(State()), "fhe")
    {
      SwitchMode("fhe");
    }

    method FallbackToMock()
      modifies this
      ensures State() == FellBack(old(State()))
    {
      if selectedMode == "fhe" {
        selectedMode := "mock";
        isAutoFallback := true;
      }
    }

    /**
     * The gateway health effect: it probes only in FHE mode on Sepolia, and only logs a warning
     * when the gateway is unhealthy or unreachable. It changes no state (no `modifies`).
     */
    method ProbeGateway(chainId: int, reply: ProbeReply) returns (probed: bool, warned: bool)
      ensures probed <==> selectedMode == "fhe" && chainId == GatewayProbeChainId
      ensures warned <==> probed && reply != Responded(true)
    {
      probed := selectedMode == "fhe" && chainId == GatewayProbeChainId;
      warned := probed && reply != Responded(true);
    }

    /** `isFHEMode`. */
    function IsFheMode(): bool
      reads this
    {
      selectedMode == "fhe"
    }

    /** `isMockMode`. */
    function IsMockMode(): bool
      reads this
    {
      selectedMode == "mock"
    }
  }
}
