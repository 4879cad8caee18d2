# tet.fanstatic in Dafny

A model of `tet.fanstatic`, the Pyramid tween that connects the Fanstatic
asset library to a Pyramid application, with proofs about it.

The model has three modules:

- `Strings` (strings.dfy) holds the Python `str` operations the tween uses:
  `startswith`, `replace(old, new, 1)` (with `Find`, the search for the
  occurrence it replaces), `rstrip`, `lower` and `in`.
- `Settings` (settings.dfy) holds `filter_settings`, which keeps the
  settings under `tet.fanstatic.` and strips that prefix. It also holds the
  `dict.get`/`dict.pop` lookups and Python truthiness of string settings.
- `Tween` (tween.dfy) holds the tween itself:
  - `TetFanstaticTween` is a class. Its constructor models `__init__`: the
    filtered config, the publisher signature, the `use_application_uri` and
    `use_thread_local` flags, the publisher prefix and the injector, built
    after `injector` has been popped from the config.
  - `MakeTween` models the start-up failure when the injector name is not
    in the registry.
  - `Call` models `__call__`, with its handler half in `RunHandler`. A
    request under the prefix goes to the publisher, with the prefix moved
    from `PATH_INFO` to `SCRIPT_NAME`. A 404 restores both values and falls
    through. The per-request tracker is put in the environ under
    `fanstatic.needed` and removed on every exit path. The injection gate
    decides whether the body is replaced.

Fanstatic's publisher, the downstream handler and the injector are
function-valued fields. Their exceptions are the `Err` case of `Result`.
The tracker is `NeededResources`, a small class standing in for Fanstatic's
class of the same name. The thread-local registration done by
`fanstatic.init_needed`/`del_needed` is the flag `threadLocalNeeded`.

Some behaviours of the code that the model keeps:

- The prefix strips every trailing `/` from `base_url` before appending
  `/`, the signature and `/` (tet/fanstatic/__init__.py:42-44).
- When the publisher answers with something other than a 404, the request
  keeps the rewritten `SCRIPT_NAME`/`PATH_INFO`. The code returns before it
  restores them (lines 66-70).
- A setting is a string, so any non-empty value turns a flag on, including
  `false` (line 34, `Settings.FlagOnFalseString`).
- The `finally` block deletes the tracker slot before it clears the
  thread-local registration (lines 96-98). A handler that removed the slot
  itself makes the deletion raise `KeyError`, which replaces the handler's
  outcome, and the registration is left in place
  (`Tween.SlotDeletedScenario`).

## Model

| member | source | states |
|---|---|---|
| `Strings.StartsWith` | tet/fanstatic/__init__.py:21 | `s.startswith(p)`: `p` is no longer than `s` and is its leading part; used for the settings keys and, at line 56, for the path |
| `Strings.ReplaceFirst` | tet/fanstatic/__init__.py:19 | `s.replace(pat, rep, 1)`: the first occurrence found by `Find` is replaced and nothing else changes; `ReplaceLeading` and `ReplaceLeadingRoundTrip` state its use at lines 19 and 60 |
| `Strings.Contains` | tet/fanstatic/__init__.py:84 | `sub in s`: `Find` finds an occurrence; `ContainsIff` states it as an occurrence at some position |
| `Settings.StripSettingsPrefix` | tet/fanstatic/__init__.py:19 | `k.replace('tet.fanstatic.', '', 1)`; `StripSettingsPrefixInverse` shows it removes the leading prefix |
| `Settings.Get` | tet/fanstatic/__init__.py:31 | `d.get(key, default)`: the stored value, or the default when the key is missing; also used at line 43 |
| `Settings.Flag` | tet/fanstatic/__init__.py:32-34 | Python truthiness of a string setting: present and non-empty |
| `Tween.PublisherPrefix` | tet/fanstatic/__init__.py:42-44 | `'%s/%s/' % (base_url.rstrip('/'), signature)`; `PublisherPrefixShape` states its shape |
| `Tween.ConfigPrefix` | tet/fanstatic/__init__.py:31-44 | the prefix from the config's `base_url` (default empty) and `publisher_signature` (default `fanstatic`) |
| `Tween.PublisherAnswers` | tet/fanstatic/__init__.py:66 | the publisher's answer ends the request unless its status is 404; an exception from it propagates |
| `Tween.InjectionApplies` | tet/fanstatic/__init__.py:82-84 | the gate: lower-cased content type non-empty, resources needed, and `/html` or `/xhtml` in it; `InjectionAppliesIff` states it |
| `Tween.AfterHandler` | tet/fanstatic/__init__.py:80-94 | what becomes of the handler's outcome; `AfterHandlerBody` states its properties |
| `Tween.TrackerBaseUrl` | tet/fanstatic/__init__.py:74-75 | the configured `base_url`, or the application URI without trailing `/` when `use_application_uri` is set and none is configured |
| `Tween.InjectorName` | tet/fanstatic/__init__.py:46 | the `injector` setting, by default `topbottom` |
| `Strings.Find` | tet/fanstatic/__init__.py:60 | the index `str.replace(..., 1)` replaces is the first position where the pattern occurs: nothing matches before it, and `None` means no position matches |
| `Strings.ContainsIff` | tet/fanstatic/__init__.py:84 | `sub in s` holds exactly when `sub` starts at some position of `s` |
| `Strings.ReplaceLeading` | tet/fanstatic/__init__.py:60 | on a string that starts with the pattern, `replace(pat, rep, 1)` replaces the leading occurrence |
| `Strings.ReplaceLeadingRoundTrip` | tet/fanstatic/__init__.py:56-61 | putting the removed leading pattern back in front gives the original string |
| `Strings.RStrip` | tet/fanstatic/__init__.py:43 | `rstrip('/')` returns a prefix of its input that does not end in `/`, and only `/` characters were removed |
| `Strings.RStripUnique` | tet/fanstatic/__init__.py:43 | those three properties determine `rstrip` completely |
| `Strings.RStripIdempotent` | tet/fanstatic/__init__.py:43 | stripping twice gives the same result as stripping once |
| `Strings.RStripAppend` | tet/fanstatic/__init__.py:43 | an extra trailing `/` does not change the stripped result |
| `Strings.Lower` | tet/fanstatic/__init__.py:82 | `lower()` keeps the length, leaves no upper-case ASCII letter, and changes no other character |
| `Strings.LowerUpperCase` | tet/fanstatic/__init__.py:82 | `lower()` turns each upper-case ASCII letter into the matching lower-case letter |
| `Strings.LowerIdempotent` | tet/fanstatic/__init__.py:82 | lower-casing twice gives the same result as lower-casing once |
| `Settings.StripSettingsPrefixInverse` | tet/fanstatic/__init__.py:19 | removing `tet.fanstatic.` from a selected key and putting it back gives the key again |
| `Settings.StripSettingsPrefixInjective` | tet/fanstatic/__init__.py:18-22 | two selected keys never strip to the same key |
| `Settings.FilterSettings` | tet/fanstatic/__init__.py:16-22 | every result entry `j` comes from the setting `tet.fanstatic.` + `j`, with the same value |
| `Settings.FilterSettingsKeeps` | tet/fanstatic/__init__.py:18-22 | every setting under `tet.fanstatic.` is in the result, under its key without the prefix and with its value |
| `Settings.FilterSettingsDrops` | tet/fanstatic/__init__.py:21 | a setting whose key does not start with `tet.fanstatic.` contributes no entry |
| `Settings.StrippedKeysSize` | tet/fanstatic/__init__.py:17-22 | stripping the prefix from a set of prefixed keys keeps the set's size |
| `Settings.FilterSettingsKeys` | tet/fanstatic/__init__.py:18-22 | the result's keys are exactly the selected keys with the prefix stripped |
| `Settings.FilterSettingsSize` | tet/fanstatic/__init__.py:16-22 | the result has exactly one entry per setting under `tet.fanstatic.`, so no entry is lost |
| `Settings.Pop` | tet/fanstatic/__init__.py:46 | `pop('injector', 'topbottom')` returns the stored value or the default, and leaves every other entry unchanged |
| `Settings.FlagOnFalseString` | tet/fanstatic/__init__.py:34 | the string setting `false` makes `use_thread_local` true |
| `Tween.PublisherPrefixShape` | tet/fanstatic/__init__.py:42-44 | the prefix is `base_url` without trailing `/`, then `/`, the signature and a closing `/` |
| `Tween.PublisherPrefixIgnoresTrailingSlash` | tet/fanstatic/__init__.py:43 | `base_url` with an extra trailing `/` gives the same prefix |
| `Tween.DefaultConfigPrefix` | tet/fanstatic/__init__.py:31-44 | with no `base_url` and no `publisher_signature` in the config, the prefix is `/fanstatic/` |
| `Tween.DefaultPrefix` | tet/fanstatic/__init__.py:29-44 | with no `tet.fanstatic.base_url` and no `tet.fanstatic.publisher_signature` setting, the prefix is `/fanstatic/` |
| `Tween.Route` | tet/fanstatic/__init__.py:56-61 | a path is offered to the publisher exactly when it starts with the prefix, under `script_name + prefix` and with the leading prefix removed from the path |
| `Tween.RouteKeepsFullPath` | tet/fanstatic/__init__.py:60-61 | the rewrite leaves `script_name + path_info` unchanged |
| `Tween.RouteDefaultAsset` | tet/fanstatic/__init__.py:56-62 | with the default prefix, `/fanstatic/foo.js` is published as `foo.js` under the script name `/fanstatic/` |
| `Tween.InjectionAppliesIff` | tet/fanstatic/__init__.py:82-84 | the gate holds exactly when the tracker has resources and the lower-cased content type contains `/html` or `/xhtml`, so the emptiness test adds nothing |
| `Tween.InjectionAppliesToHtml` | tet/fanstatic/__init__.py:82-84 | `Text/HTML` passes the gate with resources and fails it without |
| `Tween.InjectionAppliesToHtmlLower` | tet/fanstatic/__init__.py:82-84 | `text/html` passes the gate when there are resources |
| `Tween.InjectionAppliesToXhtml` | tet/fanstatic/__init__.py:82-84 | `application/xhtml+xml` passes the gate when there are resources |
| `Tween.InjectionSkipsOtherTypes` | tet/fanstatic/__init__.py:82-84 | `application/json` and a missing content type never pass the gate |
| `Tween.AfterHandlerBody` | tet/fanstatic/__init__.py:80-94 | an exception propagates; status and content type never change; outside the gate the response is unchanged; inside it the body becomes the injector's output, or the injector's exception propagates |
| `Tween.SlotRemoved` | tet/fanstatic/__init__.py:77-97 | for a handler that leaves the environ as it received it, deleting the tracker slot after inserting it leaves the environ as before, minus that key |
| `Tween.TrackerBaseUrlFromApplicationUri` | tet/fanstatic/__init__.py:74-75 | a base URL taken from `application_uri` is that URI without its trailing `/` characters |
| `Tween.TetFanstaticTween.constructor` | tet/fanstatic/__init__.py:26-49 | the config is the filtered settings minus `injector`; the signature, both flags and the prefix come from the filtered settings; the injector is built by the registered factory from that config |
| `Tween.MakeTween` | tet/fanstatic/__init__.py:26-49 | start-up fails exactly when the injector name is not registered; otherwise the tween is the constructor's: same handler and publisher, config without `injector`, signature, flags and prefix from the filtered settings, and the injector built by the registered factory from that config |
| `Tween.TetFanstaticTween.Call` | tet/fanstatic/__init__.py:54-100 | a publisher answer other than 404 is returned as is, with the path still rewritten, no tracker and no handler call. Otherwise the handler sees `SCRIPT_NAME`/`PATH_INFO` as they began and the tracker under `fanstatic.needed`; the request ends as the handler left it with the key gone; the tracker's base URL follows `use_application_uri`; if the slot was still there, the registration is cleared in thread-local mode and the outcome is `AfterHandler` of the handler's result, and if the handler removed it, the outcome is the `KeyError` and the registration stays |
| `Tween.TetFanstaticTween.RunHandler` | tet/fanstatic/__init__.py:72-100 | a fresh tracker is in the environ under `fanstatic.needed` while the handler runs; afterwards, whether the handler returned or raised, the request is as the handler left it with the key gone; when the slot was still there the thread-local registration is cleared in thread-local mode and the outcome is `AfterHandler` of the handler's result; when the handler removed it, `del` raises `KeyError`, which becomes the outcome, and `del_needed` is skipped |
| `Tween.AssetScenario` | tet/fanstatic/__init__.py:56-67 | with default settings, a request for `/fanstatic/foo.js` that the publisher serves returns the asset and the handler does not run |
| `Tween.InjectionScenario` | tet/fanstatic/__init__.py:72-100 | an HTML response from a handler that needed a resource gets the injector's body, and the environ keeps no tracker slot |
| `Tween.HandlerErrorScenario` | tet/fanstatic/__init__.py:77-98 | a handler exception propagates, and neither the tracker slot nor the thread-local registration survives it |
| `Tween.SlotDeletedScenario` | tet/fanstatic/__init__.py:96-98 | in thread-local mode, a handler that deletes the tracker slot makes the request end in `KeyError`, and the thread-local registration survives |

## Left out

- setup.py is packaging metadata and is not modelled.
- The `DummyWarningNeededResources` class and the global class swap at line 52 are left out. They are a process-wide monkey-patch whose only effect is a `warnings.warn` call.
- `includeme` and the request methods `needed_resources` and `need` (lines 103-114) are left out. They are Pyramid registration and one-line forwarding.
- Fanstatic's `Publisher`, `NeededResources`, injectors and `InjectorRegistry` are not part of this model. The publisher, the injector and the registry's factories are function values. The tracker is a stand-in class with a base URL (taken from the `base_url` option, and present when non-empty) and a list of resources.
- The `needed.resources()` call at line 86 is left out. The tween does not use its result.
- The fallback from `response.text` to `response.body` (lines 91-94) is one body assignment. It depends on WebOb's encoding rules.
- Thread-local mode is the flag `threadLocalNeeded` on the tween, not state held per thread.
- Settings values are strings, as an ini file gives them. Non-string values set from code are not modelled.
- `Strings.Lower`: only ASCII letters are lower-cased. Python's full Unicode case mapping is not modelled.
- `SCRIPT_NAME` and `PATH_INFO` are fields of the request, apart from the rest of the environ map. `application_uri` is a fixed field of the request. WebOb derives it from the environ, and the tween reads it only after `SCRIPT_NAME` has been restored.
- The publisher cannot change the request. The handler's effect on the request is the `SCRIPT_NAME`, `PATH_INFO` and environ it leaves behind; its effect on the tracker is the list of resources it needs, added to the tracker after it returns. A handler that replaces the object in the tracker slot is not modelled beyond the deletion of that slot.
- Exceptions raised by the tracker's constructor or by `set_base_url` are not modelled.
- `Tween.TetFanstaticTween.Call`: the injector is not passed the request object. It gets the body, the tracker's base URL and resources, and the response.
