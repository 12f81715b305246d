# Display service: window configuration, in Dafny

This project models the window-configuration path of the Go display service. It has two parts.

- `window.dfy` (module `Window`) models `window.go`. The window configuration has five attributes: Name, Title, Width, Height and URL. Each `With*` constructor builds an option that overwrites one of them in place. The configuration the options point to is the class `WindowConfig`, and the method `Apply` updates its fields. The pure function `Applied` says what one application does to the configuration's value. Besides the five field setters, a `WindowOption` can be `Custom(f)`, which stands for any other implementation of an option interface. One example is the mock in display_test.go:59-66, which implements the core package's option interface.
- `display.dfy` (module `Display`) models the window path of `display.go`:
  - `OpenWindow` starts from the defaults (`main`, `Core`, 1280, 800, `/`). A loop applies the options to one `WindowConfig` object, and the result is copied field for field into the toolkit's `WebviewWindowOptions`.
  - `HandleOpenWindowAction` reads an open-window request out of an untyped key/value bag. A field that is missing or has the wrong type is skipped.
  - `HandleIPCEvents` classifies an inbound message by its dynamic type.

The toolkit calls (`App.Window.NewWithOptions`, `NewWithStruct`, `ServiceStartup`, the logger) are the boundary. Each operation returns the toolkit record it would pass to the toolkit, or an `Outcome` that names the runtime call it would make. `OpenWindow` and `handleOpenWindowAction` ignore what `NewWithOptions` returns and always succeed (display.go:84-85, 151-152). Only the typed open-window action can pass an error back to the caller: the error from `NewWithStruct` (display.go:57-58), which is the runtime's own and is not represented. Startup always returns nil, because `ServiceStartup` ends by calling `OpenWindow()` with no options (display.go:123), which opens the default window and returns nil.

The untyped bag is the datatype `Val`. It holds a string, a number, a nested bag or some other value. The reference meaning of the parser, `ParseWindowOptions`, is defined by looking values up along a path of keys (`At`). The method `HandleOpenWindowAction` follows the source's nested conditional assignments, and it is proved equal to that reference. `ParseWindowOptions` corresponds to `parseWindowOptions` in display_test.go:52.

In the same way, the function `Fold` is the reference meaning of the option loop at display.go:138-140. It applies the options to a starting configuration in order, first to last. The method `OpenWindow` runs that loop on a `WindowConfig` object and is proved to return `Translate(Fold(Defaults, opts))`. The lemmas `FoldConcat`, `FoldUntouched`, `FoldLastWins` and `RepeatedOptionIsOnce` are about `Fold`.

Two facts about the code that the model relies on:
- The configuration has exactly the five fields of window.go:4-10. The open-window tag is `"display.open_window"` (display.go:53).
- `display.go` and its tests use only five fields of the core package's `WindowConfig`: Name, Title, Width, Height and URL (display.go:129-135, 144-148; display_test.go:89-95). The model gives that record and the one in window.go the same `Config`.

## Model

| member | source | states |
|---|---|---|
| `Window.Applied` | window.go:20-52 | A With* option writes its value into its own attribute and leaves every other attribute as it was. A custom option has exactly the effect of its wrapped function. |
| `Window.WithName` | window.go:24-28 | For every config, the option sets Name to the given value and keeps Title, Width, Height and URL. |
| `Window.WithTitle` | window.go:30-34 | For every config, the option sets Title only. |
| `Window.WithWidth` | window.go:36-40 | For every config, the option sets Width only. |
| `Window.WithHeight` | window.go:42-46 | For every config, the option sets Height only. |
| `Window.WithURL` | window.go:48-52 | For every config, the option sets URL only. |
| `Window.ApplyIdempotent` | window.go:24-52 | Applying the same With* option twice gives the same config as applying it once. |
| `Window.LastWriteWins` | window.go:24-52 | Of two With* options on the same attribute, the later one's value remains. |
| `Window.DistinctFieldsCommute` | window.go:24-52 | With* options on different attributes give the same config in either order. |
| `Window.Apply` | window.go:20-22 | Applying an option to the record changes the record's value to `Applied` of its old value. |
| `Window.WindowConfig.constructor` | display.go:129-135 | A new record holds exactly the given attribute values. |
| `Display.Translate` | display.go:143-149 | The toolkit record carries Name, Title, Width, Height and URL unchanged. |
| `Display.TranslateInjective` | display.go:143-149 | Translation loses nothing: different configs give different toolkit records. |
| `Display.OpenWindow` | display.go:127-153 | The record handed to the toolkit is the translation of the options folded left to right over the defaults. With no options it is {main, Core, 1280, 800, /}. |
| `Display.FoldConcat` | display.go:138-140 | Applying `s` and then `t` is the same as applying `s + t`. Options interact only through the shared record. |
| `Display.FoldUntouched` | display.go:129-140 | An attribute that no option writes keeps its starting (default) value. |
| `Display.FoldLastWins` | display.go:138-140 | If option k writes an attribute and no later option touches it, the final config holds option k's value. |
| `Display.RepeatedOptionIsOnce` | display.go:138-140 | Applying the same With* option n ≥ 1 times gives the same config as applying it once. |
| `Display.OverrideAllDefaults` | display.go:127-149 | For every config `v`, a single caller-supplied option that rewrites the record to `v` makes the toolkit record exactly the translation of `v`: none of the defaults survive. |
| `Display.HandleOpenWindowAction` | display.go:68-86 | Building the record by conditional assignment gives the path-lookup reference `ParseWindowOptions`: each of name, options.Title, options.Width and options.Height is taken if present with the right type, and is zero otherwise. URL stays empty. |
| `Display.ParseEmpty` | display.go:69 | An empty bag gives the all-zero record. |
| `Display.ParseName` | display.go:70-72 | Name is the bag's `"name"` exactly when that holds a string. Otherwise Name is empty. |
| `Display.ParseNameOnly` | display.go:69-83 | A bag with only a name sets only Name. |
| `Display.ParseValidOptions` | display.go:70-82 | `{"name":"main","options":{"Title":"My App","Width":1024,"Height":768}}` gives {main, My App, 1024, 768}. |
| `Display.ParseIgnoresUnknownKey` | display.go:69-83 | Adding a top-level key other than `"name"` or `"options"` does not change the result. |
| `Display.ParseIgnoresUnknownOption` | display.go:73-83 | Adding a key other than Title, Width or Height to the options bag does not change the result. |
| `Display.ParseSkipsIllTypedOption` | display.go:73-83 | An option of the wrong type parses as if it were absent. Its attribute stays zero, and the other fields still apply. |
| `Display.HandleIPCEvents` | display.go:50-65 | A bag opens a window, from its parsed contents, if and only if `"action"` is the string `"display.open_window"`. Any other bag is ignored without logging. A typed open-window action opens its own record. The startup signal starts the service. Only messages of any other type are logged. |

## Left out

- `ShowEnvironmentDialog` (display.go:89-114) is left out. It formats runtime-supplied environment data into text, and it iterates a Go map, whose order is unspecified.
- `ServiceStartup` and `monitorScreenChanges` (display.go:117-124, 156-160) are left out. They are runtime and event wiring. The model's `HandleIPCEvents` only reports that startup would run.
- `New`, `Register`, `ServiceName` and `newDisplayService` (display.go:22-47) are left out. They are dependency-injection boilerplate.
- Window creation itself (`NewWithOptions`, `NewWithStruct`) is left out. It is the toolkit's. Operations return the record they would pass to it. The source discards the result of `NewWithOptions`. The error from `NewWithStruct` is the only one that can reach a caller, and it is not represented. Startup always returns nil (display.go:123, 152).
- The tray and its menu (tray.go), the action type wrapper (actions.go) and the web UI are not part of this model. They only call into the toolkit.
- JSON numbers are left out. The decoder gives `float64`, and `int(width)` truncates it. The model's `Num` holds an integer and does not model the truncation of fractional values. A Go `int` stored in the bag fails the source's `float64` assertion, so in the model it is `Other`.
- `HandleIPCEvents` does not model the log text or the `%T` type name. An unrecognised message carries its type name as given.
- The toolkit record here has only the five attributes the service fills in. On the two paths that build the record (`OpenWindow` and `handleOpenWindowAction`) the toolkit's other attributes keep their zero values. On the third path, the typed `ActionOpenWindow` passes the caller's full toolkit record on (display.go:56-58). `Message.ActionOpenWindow` keeps only its five modelled attributes.
- Fixed-width integers: Go's `int` is 32 or 64 bits wide depending on the platform. Widths and heights are copied and never computed on, so the model uses unbounded `int`.
- Window.Apply and Display.OpenWindow: a nil option is not modelled. In Go a nil `WindowOption` in the option list (display.go:139), or a `WindowOptionFunc(nil)` (window.go:21), panics, and no window is created. An option's effects other than the new record value are not modelled either. A Go option receives a `*WindowConfig`, so it may keep the pointer or do other work. The model's `Custom(f)` is a total, pure function of the record's value.
- Option types are merged into one `WindowOption`. In Go, window.go's `With*` constructors return `display.WindowOption`, whose `Apply` takes a `*display.WindowConfig` (window.go:13-15, 24-52). `OpenWindow` accepts `core.WindowOption`, whose `Apply` takes a `*core.WindowConfig` (display.go:127, 139). These are different interface types, so window.go's options cannot be passed to `OpenWindow` as the code stands. The test's mock implements the core interface (display_test.go:59-66). So `FoldLastWins`, `FoldUntouched` and `RepeatedOptionIsOnce` describe the fold for options that write one field each. This holds for any core option that behaves like the `With*` options, not for window.go's options passed to `OpenWindow` directly.
