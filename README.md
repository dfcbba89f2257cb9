# Flyleaf audio device registry in Dafny

This project models `AudioEngine`, the audio output device registry of the
Flyleaf media player library. It covers the following:

- the device list offered to the user (the `"Default"` sentinel first, then
  every active render endpoint's friendly name);
- the current device, which follows the system's default endpoint;
- the start-up sequence, which ends in a usable or a `Failed` engine;
- the rebuild that every endpoint notification triggers, together with the
  reconciliation of each player's selected device against the rebuilt list;
- the two lookups between friendly names and endpoint ids.

The platform's device enumerator is replaced by a snapshot value,
`Endpoints.Platform`. It holds the active endpoints as `(id, friendlyName)`
pairs in enumeration order, plus the default multimedia render endpoint if
there is one. Every operation that asks the enumerator takes the snapshot as
a parameter. The XAudio2 probe is a boolean: could an instance be created.
The configuration switch `DisableAudio` is a boolean too. A player's audio
side is the class `PlayerAudio`. It has a mutable `device` name and a count
of the `RaiseDevice` calls it received. The engine's player list is a
`seq<PlayerAudio>` parameter.

Files:

- `text.dfy` (module `Text`): case folding for the lookups.
- `endpoints.dfy` (module `Endpoints`): the snapshot types, the sentinel
  constants, and the two lookups as pure first-match functions, with their
  round-trip lemmas.
- `audio_engine.dfy` (module `AudioEngines`): the `PlayerAudio` and
  `AudioEngine` classes, the specification of a rebuild, and a client method
  (`UnplugScenario`). That method proves the unplug scenario: two endpoints,
  the default one is removed, and its player falls back to `"Default"`.

`DefaultDeviceName` and `DefaultDeviceId` are module constants. The source
never reassigns them, so in the model they cannot change at all.

Behaviour of the code worth noting:

- A rebuild keeps duplicate friendly names. The list holds exactly one
  entry per active endpoint, plus the sentinel.
- The lookups scan the live enumeration, not the `Devices` list.
- `Failed` does not switch the lookups off. After a start-up that found no
  default endpoint, the enumerator exists and the lookups work normally.
  Only with audio disabled is there no enumerator. Then any non-sentinel
  lookup fails, and the model returns `Failure(NoEnumerator)`.
- When the enumeration reports no default endpoint, a rebuild leaves
  `CurrentDeviceId`/`CurrentDeviceName` as they were. They may then name an
  endpoint that is no longer active.
- A refresh whose enumeration fails is not caught inside `RefreshDevices`.

## Model

| member | source | states |
|---|---|---|
| `Text.Lower` | FlyleafLib/Engine/Engine.Audio.cs:56 | Folding to lower case keeps the length and folds each character on its own. |
| `Endpoints.FindFirst` | FlyleafLib/Engine/Engine.Audio.cs:54-60 | The scan with early return gives the first position whose name or id equals the key up to case. It gives None only when no position matches. |
| `Endpoints.IdForName` | FlyleafLib/Engine/Engine.Audio.cs:49-63 | `"Default"` gives `"0"`. Any other name gives the id of the first active endpoint whose friendly name equals it up to case. The result is NotFound exactly when no endpoint matches. |
| `Endpoints.NameForId` | FlyleafLib/Engine/Engine.Audio.cs:64-78 | `"0"` gives `"Default"`. Any other id gives the friendly name of the first active endpoint whose id equals it up to case. The result is NotFound exactly when no endpoint matches. |
| `Endpoints.NameOfIdOfName` | FlyleafLib/Engine/Engine.Audio.cs:49-78 | If ids are distinct up to case and none is exactly `"0"`, a name that resolves to an id resolves back to a name equal to it up to case. |
| `Endpoints.SentinelIdBreaksRoundTrip` | FlyleafLib/Engine/Engine.Audio.cs:66-67 | An endpoint whose id is exactly `"0"` resolves by name to `"0"`, but `"0"` resolves back to `"Default"` by the sentinel short-cut, so the name round trip needs that exclusion. |
| `Endpoints.IdOfNameOfId` | FlyleafLib/Engine/Engine.Audio.cs:49-78 | If friendly names are distinct up to case and none is exactly `"Default"`, an id that resolves to a name resolves back to an id equal to it up to case. |
| `Endpoints.Names` | FlyleafLib/Engine/Engine.Audio.cs:103-104 | The added names are the endpoints' friendly names, one per endpoint, in enumeration order. |
| `AudioEngines.RebuiltDevices` | FlyleafLib/Engine/Engine.Audio.cs:137-140 | A rebuilt list has one more entry than there are active endpoints. Entry 0 is `"Default"` and entry i+1 is endpoint i's friendly name, duplicates kept. |
| `AudioEngines.InRebuiltDevices` | FlyleafLib/Engine/Engine.Audio.cs:137-144 | A name is in the rebuilt list, by the exact comparison `Devices.Contains` makes, if and only if it is `"Default"` or the exact friendly name of an active endpoint. |
| `AudioEngines.RebuiltDevicesResolve` | FlyleafLib/Engine/Engine.Audio.cs:137-140 | Every name in a rebuilt list resolves to an id through `GetDeviceId` over the same enumeration. |
| `AudioEngines.DefaultNamedEndpoint` | FlyleafLib/Engine/Engine.Audio.cs:51-52 | An endpoint named exactly `"Default"` puts `"Default"` in the rebuilt list twice. A player holding that name is kept by the exact `Contains` test, but the name lookup answers the sentinel id `"0"`, never the endpoint's id. |
| `AudioEngines.ResolvedNameMayBeUnlisted` | FlyleafLib/Engine/Engine.Audio.cs:56 | A name that equals an endpoint's friendly name only up to case resolves through the case-insensitive lookup, yet is not in the rebuilt list under the exact comparison at line 144, so a player holding it is reset to `"Default"`. |
| `AudioEngines.SpeakersExample` | FlyleafLib/Engine/Engine.Audio.cs:144 | For one endpoint `"Speakers"`, the name `"speakers"` resolves to the endpoint's id but is not in the rebuilt list. |
| `AudioEngines.PlayerAudio.RaiseDevice` | FlyleafLib/Engine/Engine.Audio.cs:147 | Re-announcing keeps the player's device and adds one to its count of re-announcements. |
| `AudioEngines.AudioEngine.constructor` | FlyleafLib/Engine/Engine.Audio.cs:83-127 | There are four outcomes. Disabled: `Failed`, no enumerator, empty list, current is the sentinel. No default endpoint: `Failed`, empty list, current is the sentinel, no subscription. Otherwise the list is rebuilt, current is the default endpoint and the engine subscribes; `Failed` holds exactly when the XAudio2 probe failed. |
| `AudioEngines.AudioEngine.RebuildDevices` | FlyleafLib/Engine/Engine.Audio.cs:101-104 | The loop leaves the list equal to the rebuilt list for the enumeration, and changes nothing else. |
| `AudioEngines.AudioEngine.RefreshDevices` | FlyleafLib/Engine/Engine.Audio.cs:129-158 | The list is rebuilt, and every player's device is afterwards in it. A player whose device was listed keeps it and is re-announced exactly once; every other player is set to `"Default"` and not re-announced. Current follows the default endpoint when one exists and is unchanged otherwise. `Failed` and the subscription are unchanged, and the object invariant is kept. |
| `AudioEngines.AudioEngine.ReconcilePlayers` | FlyleafLib/Engine/Engine.Audio.cs:142-148 | Afterwards every player's device is in the list. A player whose device was listed keeps it and is re-announced exactly once. Every other player has `"Default"` and is not re-announced. |
| `AudioEngines.AudioEngine.GetDeviceId` | FlyleafLib/Engine/Engine.Audio.cs:49-63 | The loop returns what `IdForName` specifies for the live enumeration. Without an enumerator, a non-sentinel name gives `NoEnumerator`. |
| `AudioEngines.AudioEngine.GetDeviceName` | FlyleafLib/Engine/Engine.Audio.cs:64-78 | The loop returns what `NameForId` specifies for the live enumeration. Without an enumerator, a non-sentinel id gives `NoEnumerator`. |
| `AudioEngines.AudioEngine.OnDeviceStateChanged` | FlyleafLib/Engine/Engine.Audio.cs:160 | Exactly one rebuild, with the effect `RefreshDevices` states. |
| `AudioEngines.AudioEngine.OnDeviceAdded` | FlyleafLib/Engine/Engine.Audio.cs:161 | Exactly one rebuild, with the effect `RefreshDevices` states. |
| `AudioEngines.AudioEngine.OnDeviceRemoved` | FlyleafLib/Engine/Engine.Audio.cs:162 | Exactly one rebuild, with the effect `RefreshDevices` states. |
| `AudioEngines.AudioEngine.OnDefaultDeviceChanged` | FlyleafLib/Engine/Engine.Audio.cs:163 | Exactly one rebuild, with the effect `RefreshDevices` states. |
| `AudioEngines.AudioEngine.OnPropertyValueChanged` | FlyleafLib/Engine/Engine.Audio.cs:164 | Nothing changes and no rebuild runs. |

## Left out

- The COM enumerator (`IMMDeviceEnumerator`, `EnumAudioEndpoints`, `GetDefaultAudioEndpoint`, `RegisterEndpointNotificationCallback`) is a foreign platform interface. It is replaced by the `Platform` snapshot parameter and the `registered` flag.
- `XAudio2Create` and `Dispose` belong to a foreign audio backend. They are reduced to the boolean `xaudio2Created`.
- The `lock` and the marshalling to the UI thread are left out. `RefreshDevices` is one atomic sequential method, so concurrent refreshes and torn reads are not modelled.
- The log dump of the enumeration at start-up is I/O only.
- `CapDevices` is declared but never filled.
- The change events of `ObservableCollection` and the `CallbackBase` plumbing serve UI data binding only.
- The catch-all `catch { Failed = true; }` is not modelled as a general mechanism. Only the named outcomes are: disabled, no default endpoint, and a failed XAudio2 probe. A failure to create the enumerator is not modelled.
- `Text.Lower`: folds only the ASCII letters, while the source uses culture-sensitive `ToLower`. Culture tables are outside the model.
- `AudioEngines.PlayerAudio.RaiseDevice`: setting a player's device and re-announcing it are plain field updates. The player's own reaction (reopening its output, data-binding notifications) is not part of this model.
- `AudioEngines.AudioEngine.ReconcilePlayers`: requires that no player occurs twice in the player list, because a repeated player would be visited twice.
- `AudioEngines.AudioEngine.RefreshDevices`: requires that the engine is subscribed, because notifications only arrive after subscription. It also requires that no player occurs twice in the player list.
- The lookups take the enumeration as it is at the moment of the call. Nothing ties that snapshot to the one used for the last rebuild.
