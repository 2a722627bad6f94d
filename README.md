# Client presets and flow slots

A Dafny model of two leaf entities of the OpenRemote shared model.

- `ClientPreset` (module `Inventory`) is a named device preset. It holds a case-insensitive user-agent pattern (`agentLike`), four viewport bounds in pixels (a bound `<= 0` is unconstrained) and an optional initial flow id. `Matches` decides whether a client variant (user agent, width, height) satisfies the preset. It follows the source's three-way split: no bounds means the agent match decides alone; bounds without positive client dimensions never match; otherwise the agent match and every positive bound must hold. The constructors and setters are class members that store fields.
- `Slot` (module `Flow`) is a connection terminal of a flow node. It has a `connectable` flag, an optional peer slot id and an optional property path. Its constructor overloads each become a named Dafny constructor, and each one states the canonical six-field state it leaves. Dafny constructors cannot delegate to one another, so the chain of `this(...)` calls is captured by those postconditions. The peer constructor copies the peer's type and id and leaves the peer unchanged. Each setter changes exactly one field and validates nothing.
- Module `Text` models the two `java.lang.String` operations that `matches` uses. `toLowerCase(Locale.ROOT)` becomes ASCII case folding (`ToLower`). `contains` becomes a left-to-right scan (`Contains`), proved equivalent to "occurs at some index".

Java `null` is `Option.None`. The `Long` id is `Option<int>`.

Assumption: `Slot` extends `FlowObject`, which is not part of this model. Its constructor `super(label, id, type)` is taken to store the three values verbatim, and `getLabel`, `getId` and `getType` are taken to return them. Its no-argument constructor, called implicitly by the protected `Slot()`, is taken to leave all three null. In the model they are the fields `slotLabel`, `id` and `slotType` (`label` and `type` are Dafny keywords).

Behaviour of the code worth knowing:
- `matches` only checks for `null`, and `"".contains("")` is true. So an empty pattern gives an agent match for every present user agent (`EmptyPatternMatchesAnyAgent`).
- Nothing in `Slot` stops the canonical constructor from storing `connectable = false` together with a peer id (`Flow.Slot.Full`).

`Text.UpperChar` and `Text.ToUpper` are helpers: the code never upper-cases, but these two let the model state what a change of letter case is (`SameIgnoringCase`, `MatchesUpperCasedAgent`).

## Model

| member | source | states |
|---|---|---|
| Text.LowerChar | src/main/java/org/openremote/shared/inventory/ClientPreset.java:158-159 | `A`-`Z` map to `a`-`z` (code point + 32); every other character is kept |
| Text.ToLower | src/main/java/org/openremote/shared/inventory/ClientPreset.java:158-159 | the folded string has the same length and is the character-wise fold of the input |
| Text.SameIgnoringCaseIffLowerEqual | src/main/java/org/openremote/shared/inventory/ClientPreset.java:158-160 | two strings have, at every index, equal characters or one the upper-case form of the other, if and only if they fold to the same string |
| Text.UpperIsSameIgnoringCase | src/main/java/org/openremote/shared/inventory/ClientPreset.java:158-160 | upper-casing only changes letter case, so it folds to the same string as the original |
| Text.Contains | src/main/java/org/openremote/shared/inventory/ClientPreset.java:160 | a found pattern is no longer than the string, and a pattern at the front is always found |
| Text.ContainsEmbedded | src/main/java/org/openremote/shared/inventory/ClientPreset.java:160 | a pattern placed anywhere inside a string is found, not only at index 0 |
| Text.ContainsIffOccurs | src/main/java/org/openremote/shared/inventory/ClientPreset.java:160 | `contains` holds exactly when the pattern occurs at some index of the string (both directions) |
| Text.ContainsEmpty | src/main/java/org/openremote/shared/inventory/ClientPreset.java:160 | every string contains the empty string |
| Inventory.AgentMatch | src/main/java/org/openremote/shared/inventory/ClientPreset.java:156-163 | an agent match needs both the pattern and the user agent to be present, and the pattern to be no longer than the user agent |
| Inventory.AgentMatchEmbedded | src/main/java/org/openremote/shared/inventory/ClientPreset.java:157-161 | a user agent that embeds the pattern anywhere, in any letter case, gives an agent match |
| Inventory.EmptyPatternMatchesAnyAgent | src/main/java/org/openremote/shared/inventory/ClientPreset.java:157-161 | an empty pattern gives an agent match for every present user agent |
| Inventory.AgentMatchIgnoresCase | src/main/java/org/openremote/shared/inventory/ClientPreset.java:157-161 | changing the letter case of the pattern or of the user agent does not change the agent match |
| Inventory.AgentMatchIffOccurs | src/main/java/org/openremote/shared/inventory/ClientPreset.java:157-161 | the agent match holds exactly when the folded pattern occurs at some index of the folded user agent |
| Inventory.ClientPreset.constructor | src/main/java/org/openremote/shared/inventory/ClientPreset.java:67-69 | the default constructor leaves every reference field null and every bound 0 |
| Inventory.ClientPreset.WithAgent | src/main/java/org/openremote/shared/inventory/ClientPreset.java:71-76 | the 3-argument constructor stores id, name and pattern and leaves all four bounds at 0, so the preset has no bounds |
| Inventory.ClientPreset.WithBounds | src/main/java/org/openremote/shared/inventory/ClientPreset.java:78-87 | the 7-argument constructor stores each argument as given |
| Inventory.ClientPreset.SetId | src/main/java/org/openremote/shared/inventory/ClientPreset.java:94-97 | only `id` changes, to the given value |
| Inventory.ClientPreset.SetName | src/main/java/org/openremote/shared/inventory/ClientPreset.java:103-105 | only `name` changes, to the given value |
| Inventory.ClientPreset.SetAgentLike | src/main/java/org/openremote/shared/inventory/ClientPreset.java:111-113 | only `agentLike` changes, to the given value |
| Inventory.ClientPreset.SetMinWidth | src/main/java/org/openremote/shared/inventory/ClientPreset.java:119-121 | only `minWidth` changes, to the given value |
| Inventory.ClientPreset.SetMaxWidth | src/main/java/org/openremote/shared/inventory/ClientPreset.java:127-129 | only `maxWidth` changes, to the given value |
| Inventory.ClientPreset.SetMinHeight | src/main/java/org/openremote/shared/inventory/ClientPreset.java:135-137 | only `minHeight` changes, to the given value |
| Inventory.ClientPreset.SetMaxHeight | src/main/java/org/openremote/shared/inventory/ClientPreset.java:143-145 | only `maxHeight` changes, to the given value |
| Inventory.ClientPreset.SetInitialFlowId | src/main/java/org/openremote/shared/inventory/ClientPreset.java:151-153 | only `initialFlowId` changes, to the given value |
| Inventory.ClientPreset.Matches | src/main/java/org/openremote/shared/inventory/ClientPreset.java:155-193 | a null pattern or null user agent never matches; a match needs both strings present and the folded user agent to contain the folded pattern; with no positive bound the result is exactly the agent match; with a bound, a width or height `<= 0` never matches; each positive bound holds of a matching variant; and conversely an agent match plus positive dimensions within every positive bound is a match. It reads the preset and changes nothing |
| Inventory.DimensionsIrrelevantWithoutBounds | src/main/java/org/openremote/shared/inventory/ClientPreset.java:166-171 | with no positive bound the result does not depend on width or height, including zero or negative values |
| Inventory.EmptyPatternMatchesAnyVariant | src/main/java/org/openremote/shared/inventory/ClientPreset.java:157-171 | an empty pattern with no bounds matches every variant that has a user agent |
| Inventory.MatchesIgnoresCase | src/main/java/org/openremote/shared/inventory/ClientPreset.java:158-160 | letter-case changes in the pattern and in the user agent do not change the verdict |
| Inventory.MatchesUpperCasedAgent | src/main/java/org/openremote/shared/inventory/ClientPreset.java:158-160 | upper-casing the user agent does not change the verdict |
| Inventory.ExampleAgentOnly | src/main/java/org/openremote/shared/inventory/ClientPreset.java:166-171 | "chrome" with no bounds matches "Mozilla Chrome/1" at 0 x 0, the pattern sitting past index 0 |
| Inventory.ExampleMissingDimensions | src/main/java/org/openremote/shared/inventory/ClientPreset.java:172-175 | "chrome" with a minimum width of 320 rejects "Chrome" at 0 x 0 |
| Inventory.ExampleWidthInRange | src/main/java/org/openremote/shared/inventory/ClientPreset.java:177-192 | "chrome" with width bounds 320..768 matches "Chrome" at 500 x 800; the height is unconstrained |
| Inventory.ExampleAgentMismatch | src/main/java/org/openremote/shared/inventory/ClientPreset.java:156-163 | "firefox" rejects "Chrome" at 500 x 800 even though the dimensions pass |
| Flow.Slot.constructor | src/main/java/org/openremote/shared/flow/Slot.java:55-57 | the protected no-argument constructor runs only the field initialiser `connectable = true` (line 47), so the slot is connectable with every other field null |
| Flow.Slot.OfIdType | src/main/java/org/openremote/shared/flow/Slot.java:59-62 | `Slot(id, type)` gives no label, connectable, no peer, no property path |
| Flow.Slot.Labelled | src/main/java/org/openremote/shared/flow/Slot.java:64-67 | `Slot(label, id, type)` gives connectable, no peer, no property path |
| Flow.Slot.WithPropertyPath | src/main/java/org/openremote/shared/flow/Slot.java:69-72 | `Slot(label, id, type, propertyPath)` stores the property path, is connectable and has no peer |
| Flow.Slot.OfIdTypeConnectable | src/main/java/org/openremote/shared/flow/Slot.java:74-77 | `Slot(id, type, connectable)` stores the flag, with no label, no peer and no property path |
| Flow.Slot.WithConnectable | src/main/java/org/openremote/shared/flow/Slot.java:79-82 | `Slot(label, id, type, connectable)` stores the flag, with no peer and no property path |
| Flow.Slot.PeerOf | src/main/java/org/openremote/shared/flow/Slot.java:84-87 | the peer constructor copies the peer's type, points `peerId` at the peer's id, is connectable, has no property path, and leaves the peer (including its own `peerId`) unchanged |
| Flow.Slot.Full | src/main/java/org/openremote/shared/flow/Slot.java:89-95 | the canonical constructor stores all six arguments as given |
| Flow.Slot.SetConnectable | src/main/java/org/openremote/shared/flow/Slot.java:101-103 | only `connectable` changes, to the given value |
| Flow.Slot.SetPeerId | src/main/java/org/openremote/shared/flow/Slot.java:109-111 | only `peerId` changes, to the given value, whatever `connectable` is; setting it to null disconnects the slot |
| Flow.Slot.SetPropertyPath | src/main/java/org/openremote/shared/flow/Slot.java:117-119 | only `propertyPath` changes, to the given value |

## Left out

- Unicode case mapping: `toLowerCase(Locale.ROOT)` is modelled as ASCII folding only. Non-ASCII characters are kept as they are. Mappings that change the length of a string are not modelled.
- Getters (`getId`, `getMinWidth`, `isConnectable`, `getPeerId`, ...): the fields are public and each getter returns its field unchanged, so the model reads the fields directly.
- `toString` of both classes: diagnostic string building only.
- The `Node` back-reference of a slot and the `FlowObject` superclass beyond the stored label, id and type: their code is not part of this model.
- Persistence mapping, validation annotations (`@NotNull`, `@Size(min = 2, max = 255)`, `unique`) and front-end binding annotations: they are enforced outside this code, so the model does not impose them.
- Java's 32-bit `int` and 64-bit `Long` ranges: the model uses unbounded integers. `matches` only compares values, so the range does not affect any result.
- `TYPE_SINK` and `TYPE_SOURCE` are declared as `Flow.TypeSink` and `Flow.TypeSource`; no code enforces them.
- `Flow.Slot.PeerOf`: the Java constructor throws a `NullPointerException` for a null `peer` (`peer.getType()` at Slot.java line 86); the model takes a non-null `Slot`, so that case is not modelled.
- `Inventory.ClientPreset.Matches`: `matches(null)` throws a `NullPointerException` (at ClientPreset.java line 165, and already at line 157 when `agentLike` is set); the variant is a datatype value, which cannot be null, so that case is not modelled.
- `Flow.Slot.constructor`: the protected `Slot()` implicitly calls `FlowObject()`, whose code is not part of this model; it is assumed to leave label, id and type null.
- Idempotence of `matches`: `Inventory.ClientPreset.Matches` is a Dafny function that reads the preset, so two calls on the same state give the same result by construction. There is no separate lemma for this.
