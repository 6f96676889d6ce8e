/**
 * The mock wallet widget: two flags, `isConnecting` and `isConnected`.
 * Connecting starts a two-second timer whose callback completes the
 * connection; the timer is modelled as a pending event, not as time.
 */
module WalletConnection {

  /** The three situations the two flags can describe. */
  datatype Phase = Disconnected | Connecting | Connected

  /** What the widget renders. */
  datatype WidgetView =
    | ConnectedCard                                   // the account card with a Disconnect button
    | ConnectPrompt(buttonDisabled: bool, caption: string)

  class WalletConnect {
    var isConnected: bool
    var isConnecting: bool
    /** Timer callbacks scheduled by a connect and not yet run. */
    var pendingTimers: nat

    /**
     * The flags are never both set, and a completion is pending exactly
     * while connecting, at most one at a time.
     */
    ghost predicate Valid()
      reads this
    {
      !(isConnected && isConnecting) &&
      pendingTimers == (if isConnecting then 1 else 0)
    }

    function CurrentPhase(): (p: Phase)
      reads this
      requires Valid()
      ensures p == Connected <==> isConnected
      ensures p == Connecting <==> isConnecting
    {
      if isConnected then Connected else if isConnecting then Connecting else Disconnected
    }

    /** The connect button is on screen (not connected) and enabled (not connecting). */
    predicate CanConnect()
      reads this
    {
      !isConnected && !isConnecting
    }

    function View(): (v: WidgetView)
      reads this
      ensures v == ConnectedCard <==> isConnected
      ensures v.ConnectPrompt? ==> (v.buttonDisabled <==> isConnecting)
      ensures v.ConnectPrompt? ==> (v.caption == "Connecting..." <==> isConnecting)
    {
      if isConnected then ConnectedCard
      else ConnectPrompt(isConnecting, if isConnecting then "Connecting..." else "Connect Wallet")
    }

    constructor ()
      ensures Valid() && CurrentPhase() == Disconnected
      ensures !isConnected && !isConnecting && pendingTimers == 0
    {
      isConnected, isConnecting, pendingTimers := false, false, 0;
    }

    /**
     * `handleConnect`, reached through the connect button: sets the
     * connecting flag at once and schedules the completion.
     */
    method Connect()
      requires Valid() && CanConnect()
      modifies this
      ensures Valid() && CurrentPhase() == Connecting
      ensures isConnecting && isConnected == old(isConnected)
      ensures pendingTimers == old(pendingTimers) + 1
    {
      isConnecting := true;
      pendingTimers := pendingTimers + 1;
    }

    /** The timer callback: connected, no longer connecting. */
    method CompleteConnect()
      requires Valid() && pendingTimers > 0
      modifies this
      ensures Valid() && CurrentPhase() == Connected
      ensures isConnected && !isConnecting
      ensures pendingTimers == old(pendingTimers) - 1
    {
      isConnected := true;
      isConnecting := false;
      pendingTimers := pendingTimers - 1;
    }

    /** `handleDisconnect`: clears the connected flag and nothing else. */
    method Disconnect()
      requires Valid()
      modifies this
      ensures Valid()
      ensures !isConnected && isConnecting == old(isConnecting) && pendingTimers == old(pendingTimers)
    {
      isConnected := false;
    }
  }

  /** A connect, its completion and a disconnect bring the widget back to where it started. */
  method ConnectRoundTrip(w: WalletConnect)
    requires w.Valid() && w.CanConnect()
    modifies w
    ensures w.Valid() && w.CurrentPhase() == Disconnected && w.View() == old(w.View())
  {
    w.Connect();
    assert w.View() == ConnectPrompt(true, "Connecting...");
    w.CompleteConnect();
    assert w.View() == ConnectedCard;
    w.Disconnect();
  }
}
