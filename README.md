# Energy-credit trading demo: a Dafny model of its component logic

The repository is a web front end for trading "energy credits". It has no server and no real
cryptography. "Encryption" means showing block characters (`█`) in place of a value. The logic
under the markup is small but exact, and this project models it:

- **Add-credit form** (`add_credit_form.dfy`, module `AddCredit`). A class `AddCreditForm` with
  the open/closed flag and the five form fields. It has the field setters, open/close, and
  `Submit`. Submit refuses an incomplete form. A complete form emits one credit, redacts the
  seller when privacy protection is on, then resets and closes. Pure functions give the emitted
  credit (`NewCredit`), its id `ec-<Date.now()>` (`CreditId`) and the rendered view (`View`).
- **Trading panel** (`trading_panel.dfy`, module `Trading`). A class `TradingPanel` with the credit
  list (four seeded credits, new ones prepended) and the selected id. Its invariant says the
  selection always names a listed credit. `SubmitForm` wires the form's `onAddCredit` to the
  panel. `FormatValue` and `Row` give the displayed texts.
- **Mock wallet widget** (`wallet_connect.dfy`, module `WalletConnection`). A class `WalletConnect`
  with `isConnecting` and `isConnected`. The two-second timer is a counter of pending completions,
  and its callback is the explicit step `CompleteConnect`.
- **Account panel** (`wallet_info.dfy`, module `WalletDisplay`). Address shortening with
  JavaScript `slice` semantics, the Sepolia explorer link, and the choice between the two views.
- **Grid picture** (`power_grid.dfy`, module `Grid`). The seeded node and connection tables,
  node colours, status icons, capacity badges, and which connections are drawn.
- Shared pieces: `options.dfy` (an `Option` type) and `text.dfy` (JavaScript's decimal text for
  an integer, and `String.prototype.slice`). `credits.dfy` holds the credit record, the
  redaction strings and the energy-type icons.

The main results are these. The submit button is disabled exactly when `Submit` would emit
nothing. Privacy protection changes only the seller and the flag of a new credit. An encrypted
row looks the same whatever amount, price and seller were typed. Ids `ec-<n>` are equal only for
equal clock readings. The shortened address and the explorer link agree. Every seeded
connection resolves, so all five lines are drawn. A plain node's badge identifies its capacity,
and an encrypted node's badge hides it.

The form has five fields: type, amount, price, seller and the privacy switch. The wallet widget
has two flags, `isConnecting` and `isConnected`. The grid file stores its emoji and bullets
mis-encoded (UTF-8 bytes read as Mac Roman, so the lightning bolt is written `‚ö°`). The model keeps
those strings code point for code point as the file has them (`ActiveIcon`, `TradingIcon`,
`IdleIcon`, `DefaultIcon`, `RedactedCapacity` and `BadgeSeparator` in `power_grid.dfy`).

## Model

| member | source | states |
|---|---|---|
| `Text.DecimalString` | src/components/AddCreditForm.tsx:43 | The text a template literal gives an integer below 10^21 is a non-empty run of digits. It starts with `0` only for zero and has one digit exactly below ten. |
| `Text.DecimalStringValue` | src/components/AddCreditForm.tsx:43 | Reading the printed digits back gives the number that was printed. |
| `Text.DecimalStringInjective` | src/components/PowerGrid.tsx:129 | Two numbers print the same text exactly when they are equal. |
| `Text.SliceIndex` | src/components/WalletInfo.tsx:16 | The position a `slice` argument denotes, negative arguments counting from the end, always lies within the string. |
| `Credits.EnergyIcon` | src/components/TradingPanel.tsx:64-71 | `getEnergyIcon`: the icon reads back to a type exactly when the string is `solar`, `wind` or `hydro`, and then to the type of that name. |
| `Credits.EnergyIconIdentifiesType` | src/components/TradingPanel.tsx:64-71 | `getEnergyIcon` gives each of solar, wind and hydro its own icon, so the type can be read back from it. The same switch is at AddCreditForm.tsx:65-72. |
| `Credits.EnergyIconDefault` | src/components/TradingPanel.tsx:64-71 | Every string that names no energy type gets the bolt (the `default` branch), which stands for no type. |
| `AddCredit.CreditId` | src/components/AddCreditForm.tsx:43 | A new credit's id is `ec-` followed by decimal digits. |
| `AddCredit.CreditIdInjective` | src/components/AddCreditForm.tsx:43 | Two ids are equal exactly when their clock readings are equal. The code does not make ids unique; only equal readings collide. |
| `AddCredit.NewCredit` | src/components/AddCreditForm.tsx:42-50 | The emitted credit has the form's type and flag and the parsed amount and price. Its seller is the twelve-block string when privacy is on, and the typed seller otherwise. |
| `AddCredit.PrivacyToggleOnlyTouchesSeller` | src/components/AddCreditForm.tsx:47-48 | An encrypted credit does not depend on the typed seller. Turning the switch on or off changes only the seller and the flag, never the id, type, amount, price or timestamp. |
| `AddCredit.View` | src/components/AddCreditForm.tsx:74-221 | The card is shown exactly when the form is open. Its submit button is disabled exactly when a required field is empty. The preview is shown exactly when privacy is on. It shows the type's icon and name, block strings for the amount (with ` MWh`) and the price (after `$`), and the redacted seller. |
| `AddCredit.PreviewHidesEnteredValues` | src/components/AddCreditForm.tsx:190-215 | The encrypted-mode preview is the same whatever amount, price and seller were typed. |
| `AddCredit.AddCreditForm.constructor` | src/components/AddCreditForm.tsx:26-33 | The form starts closed, with type solar, empty amount, price and seller, and privacy off. |
| `AddCredit.AddCreditForm.Open` | src/components/AddCreditForm.tsx:77 | The closed view's button opens the form and keeps the fields. |
| `AddCredit.AddCreditForm.Close` | src/components/AddCreditForm.tsx:97 | The X button (and Cancel, line 228) closes the form and leaves the fields as they are. |
| `AddCredit.AddCreditForm.SetType` | src/components/AddCreditForm.tsx:110-111 | Changes the type field only. |
| `AddCredit.AddCreditForm.SetAmount` | src/components/AddCreditForm.tsx:150 | Changes the amount field only. |
| `AddCredit.AddCreditForm.SetPrice` | src/components/AddCreditForm.tsx:163 | Changes the price field only. |
| `AddCredit.AddCreditForm.SetSeller` | src/components/AddCreditForm.tsx:175 | Changes the seller field only. |
| `AddCredit.AddCreditForm.SetEncrypted` | src/components/AddCreditForm.tsx:186 | Changes the privacy flag only. |
| `AddCredit.AddCreditForm.Submit` | src/components/AddCreditForm.tsx:35-63 | Emits nothing exactly when the submit button is disabled (line 221 against line 38), and then changes nothing. Otherwise it emits exactly `NewCredit` of the old fields, resets the fields to their initial values and closes. |
| `Trading.SeedCredits` | src/components/TradingPanel.tsx:20-58 | The four credits the panel mounts with. No contract of its own; characterised by `Trading.SeedCreditsShape`. |
| `Trading.SeedCreditsShape` | src/components/TradingPanel.tsx:21-58 | The seeded list is ec-1, ec-2, ec-3, ec-4 in that order. In it, a seller is the block string exactly when the credit is encrypted. |
| `Trading.FormatValue` | src/components/TradingPanel.tsx:73-76 | `formatValue`. No contract of its own; characterised by `Trading.FormatValueRedacts` and by the amount and price cells of `Trading.Row`. |
| `Trading.FormatValueRedacts` | src/components/TradingPanel.tsx:73-76 | `formatValue(v, true)` is four blocks for every value of either kind. `formatValue(s, false)` on a string is `s`. |
| `Trading.Row` | src/components/TradingPanel.tsx:90-134 | A row shows its type's own icon, the type name, the timestamp and the credit's seller, and is highlighted exactly when its id is selected. Encrypted amount and price are shown as blocks, plain ones through `toFixed(1)`. |
| `Trading.EncryptedRowHidesEnteredValues` | src/components/TradingPanel.tsx:116-130 | A credit listed with privacy protection shows the same row whatever amount, price and seller were typed into the form. |
| `Trading.TradingPanel.constructor` | src/components/TradingPanel.tsx:20-58 | The panel starts with the four seeded credits and no selection, and its invariant holds. |
| `Trading.TradingPanel.HandleAddCredit` | src/components/TradingPanel.tsx:60-62 | The new credit becomes the head and the old list is the tail, unchanged. The selection is kept and still names a listed credit. |
| `Trading.TradingPanel.ClickCredit` | src/components/TradingPanel.tsx:98 | Clicking a row selects that credit's id and leaves the list unchanged. |
| `Trading.TradingPanel.SubmitForm` | src/components/TradingPanel.tsx:80 | With the form wired to `handleAddCredit`, an incomplete form changes neither component. A complete one prepends the new credit to the list and resets and closes the form. |
| `Trading.TradingPanel.TradeCard` | src/components/TradingPanel.tsx:138 | The `selectedCredit &&` guard of the trade card, with JavaScript truthiness (an empty id is falsy). No contract of its own; characterised by `Trading.TradeCardShowsSelection`. |
| `Trading.TradeCardShowsSelection` | src/components/TradingPanel.tsx:138-149 | The trade card is rendered exactly when a credit is selected, shows that id, and the id is a listed one. This holds even under JavaScript truthiness, because listed ids are never empty. |
| `WalletConnection.WalletConnect.CurrentPhase` | src/components/WalletConnect.tsx:8-9 | Under the invariant, the two flags describe one of three phases: disconnected, connecting or connected. |
| `WalletConnection.WalletConnect.View` | src/components/WalletConnect.tsx:24-100 | The connected card is shown exactly when connected. Otherwise the connect button is disabled and reads "Connecting..." exactly while connecting. |
| `WalletConnection.WalletConnect.constructor` | src/components/WalletConnect.tsx:8-9 | Both flags start false, with no completion pending. |
| `WalletConnection.WalletConnect.Connect` | src/components/WalletConnect.tsx:11-13 | Sets `isConnecting` at once, leaves `isConnected`, and schedules one completion. |
| `WalletConnection.WalletConnect.CompleteConnect` | src/components/WalletConnect.tsx:14-17 | The timer callback sets `isConnected` and clears `isConnecting`. |
| `WalletConnection.WalletConnect.Disconnect` | src/components/WalletConnect.tsx:20-22 | Clears `isConnected` and leaves `isConnecting` alone. |
| `WalletConnection.ConnectRoundTrip` | src/components/WalletConnect.tsx:11-22 | Connect, completion and disconnect bring the widget back to the view it started from. |
| `WalletDisplay.FormatAddress` | src/components/WalletInfo.tsx:15-17 | The result is the first `min(|a|,6)` characters, then `...`, then the last `min(|a|,4)` characters, following `slice(-4)`. Its length is the sum of those parts. |
| `WalletDisplay.ExplorerUrl` | src/components/WalletInfo.tsx:78 | The link is the Sepolia explorer prefix followed by the address. |
| `WalletDisplay.ExplorerUrlRoundTrip` | src/components/WalletInfo.tsx:78 | The address can be read back from its link, and a link that reads back to an address is that address's link. |
| `WalletDisplay.ShortAddressMatchesLink` | src/components/WalletInfo.tsx:66-78 | The shortened address shown agrees with the address in the View link, at both ends. |
| `WalletDisplay.View` | src/components/WalletInfo.tsx:31-91 | The account card is shown exactly when connected with a non-empty address. It shows the shortened address and that address's explorer link. The balance cell reads `Loading...` exactly when there is no balance. |
| `Grid.NodeColor` | src/components/PowerGrid.tsx:40-48 | An encrypted node is drawn in `energy-primary`, whatever its type. A plain generator is `energy-secondary`, a plain consumer `energy-warning` and a plain trader `energy-node`. |
| `Grid.LegendExplainsColors` | src/components/PowerGrid.tsx:135-148 | Encrypted nodes have the "Encrypted Nodes" swatch colour. Plain generators and consumers have their own swatch colours. Plain traders (`energy-node`) have no swatch. |
| `Grid.StatusIcon` | src/components/PowerGrid.tsx:50-57 | `getStatusIcon`: the icon reads back to a status exactly when the string is `active`, `trading` or `idle`, and then to the status of that name. |
| `Grid.StatusIconIdentifiesStatus` | src/components/PowerGrid.tsx:50-57 | Active, trading and idle each get their own icon (as the file spells it), so the status can be read back from it. |
| `Grid.StatusIconDefault` | src/components/PowerGrid.tsx:50-57 | Any other string gets the bullet (the `default` branch), which stands for none of the statuses. |
| `Grid.CapacityText` | src/components/PowerGrid.tsx:129 | The badge's capacity part is the four-block string exactly when the node is encrypted. Otherwise it is the capacity's decimal text followed by `MW`. |
| `Grid.Badge` | src/components/PowerGrid.tsx:129 | The badge text: the upper-case type, the bullet separator, then `Grid.CapacityText`. No contract of its own; characterised by `Grid.BadgeShowsCapacityIffPlain` and by `Grid.DrawNode`. |
| `Grid.BadgeShowsCapacityIffPlain` | src/components/PowerGrid.tsx:129 | An encrypted node's badge does not depend on its capacity. A plain node's badge changes with every change of capacity. |
| `Grid.DrawNode` | src/components/PowerGrid.tsx:107-133 | A node is drawn at its position, in `getNodeColor`'s colour, with its status's own icon, pulsing exactly when trading, and with the badge of type label, bullet and capacity text. |
| `Grid.FindNode` | src/components/PowerGrid.tsx:67-68 | `find` gives nothing exactly when no node has the id. Otherwise it gives the first listed node with that id. |
| `Grid.FindNodeFindsUnique` | src/components/PowerGrid.tsx:67-68 | When ids are distinct, looking up a node's id finds that node. |
| `Grid.DrawnEdges` | src/components/PowerGrid.tsx:66-84 | Each line joins the first nodes carrying its connection's two ids, which is what `find` returns. A connection gets a line exactly when both its ends resolve. All connections are drawn exactly when all of them resolve. |
| `Grid.DrawnEdgesInOrder` | src/components/PowerGrid.tsx:66-84 | Lines come out in the order of their connections (`connections.map` keeps order), so no connection is drawn twice. |
| `Grid.SeedNodes` | src/components/PowerGrid.tsx:21-28 | The six nodes set at mount. No contract of its own; characterised by `Grid.SeedGridConsistent`. |
| `Grid.SeedConnections` | src/components/PowerGrid.tsx:31-37 | The five connections set at mount. No contract of its own; characterised by `Grid.SeedGridConsistent`. |
| `Grid.SeedGridConsistent` | src/components/PowerGrid.tsx:19-38 | In the tables set at mount, the six node ids are distinct and every end of every connection names a seeded node, so all five connections are drawn. |

## Left out

- Rendering, CSS classes, layout and icons of the markup are not modelled. Only the view choices and the displayed texts listed above are.
- `parseFloat`, `toFixed(1)` and `toFixed(4)` are parameters. Floating-point parsing and formatting are not modelled, NaN included. Amounts and prices are `real`.
- `Date.now()` and `toLocaleTimeString` are parameters (a clock reading and a text), because they depend on the clock and the locale.
- The wallet library's `useAccount`, `useBalance`, `ConnectButton`, and `window.open` are left out. The model takes the connected flag, the address and the formatted balance as inputs and returns the link instead of opening it. `formatBalance` (WalletInfo.tsx:20-29) is floating-point formatting and is not modelled.
- The two-second delay of `setTimeout` is not modelled. The callback is the discrete step `CompleteConnect`, allowed only while a completion is pending.
- WalletConnection.WalletConnect.Connect: requires that the connect button can be clicked (not connected, not connecting). The handler is reached only through that button, which is rendered only when disconnected and disabled while connecting. Double connects are therefore not modelled.
- Trading.TradingPanel.HandleAddCredit: requires a non-empty id. Its one caller, the form, always passes `ec-<digits>`.
- Grid.NodeColor: the `default` branch of `getNodeColor` is not modelled. The node type is a closed datatype, so the branch cannot be reached.
- Grid.DrawnEdges: also stands for the flow markers (PowerGrid.tsx:88-104), which use the same lookup. Their animation delay is not modelled.
- The first render of the grid, before the mount effect fills the tables, draws nothing. The model starts from the filled tables.
- Node capacities are `nat`. The seeded capacities are whole numbers, and `DecimalString` prints what a template literal prints for them.
- Text.DecimalString: JavaScript prints integers from 10^21 up in exponent form (`1e+21`); the model prints digits for every `nat`. `Date.now()` (at most 8.64·10^15 within the Date range) and the seeded capacities stay far below that bound.
- Text.Slice: counts characters where JavaScript's `slice` counts UTF-16 code units. The two agree on the ASCII hexadecimal addresses the wallet returns.
- `src/pages/Index.tsx`, `src/components/Header.tsx` and `src/lib/wagmi.ts` are not part of this model. They are static composition and configuration of the wallet library.
