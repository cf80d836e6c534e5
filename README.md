# multiport_sniffer startup, in Dafny

This project models the startup logic of an early revision of the multi-port serial
sniffer. Four pieces of that logic are covered, and each is proved against a
specification:

- **Baud table.** `speeds[]` maps 30 rates, 50 to 4 000 000 baud, to the Linux termios
  `Bxxx` tokens. It ends with a `{0,0}` sentinel. `conv_spd` looks a rate up with a
  `do … while` scan (module `BaudTable`, file `term_baud.dfy`). `ConvSpd` keeps the loop
  and is proved equal to the scan function `Resolve`. The lemmas prove three things about
  the table: its rates strictly increase, each rate resolves to its own token, and any
  other non-zero speed fails with "Wrong speed value".
- **Per-port speed resolution.** `ttys_open` walks the NULL-terminated port list. Each
  port gets the common token, resolved once before the loop. When that token is 0, the
  port instead takes its own entry from the per-port speed list, and that list's cursor
  moves in step with the ports (module `PortOpen`, file `term_ports.dfy`). In this
  revision nothing is opened. The result is the list of (port, token) pairs the loop
  reports, plus the reason if it stopped early.
- **Startup reconciliation in `main`.** `GlobPars` is a class over the parsed parameters.
  `RunStartup` does the following, in the source's order (module `Startup`, file
  `main_startup.dfy`):
  - validates a non-default common speed;
  - appends the free parameters to the `-p` ports in a new NULL-terminated array;
  - refuses an empty port list;
  - refuses a per-port speed list whose length differs from the port count;
  - calls `ttys_open`.

  Its result equals the value function `Startup`. The lemmas about `Startup` state that
  the checks happen before `ttys_open` and that order is kept.
- **Small pure pieces.** The raw-mode `struct termio` that `tty_init` builds from the old
  one (module `TtySettings`, file `term_settings.dfy`). The console-byte dispatch of
  `con_sig`: nothing, quit with status 0, or one byte sent to the device (module
  `Console`, file `term_console.dfy`).

A C list of pointers ending at NULL is an `array<Option<T>>`, where `None` is NULL
(module `CArrays`, file `c_arrays.dfy`). `ERRX` and `ERR` exits are error outcomes.

The sentinel row matches speed 0, so `conv_spd(0)` returns token 0 instead of failing.
The model keeps this, and proves what follows from it. `-t 0` passes `main`'s up-front
check. `ttys_open` then gets common token 0, takes the per-port branch, and dereferences
the NULL speed list at the first port. That path is the outcome
`Stopped(NullSpeedList, [])`; see `Startup.ZeroGlobalSpeedReachesNullList`.

The assignment `Glob->speeds = NULL` at main.c:47 changes nothing, because its branch only
runs when the list is already NULL. `RunStartup` therefore leaves `speeds` unchanged. With
a per-port list, `-t` is neither checked nor used; see
`Startup.GlobalSpeedIgnoredWithList`.

## Model

| member | source | states |
|---|---|---|
| CArrays.Count | main.c:52-54 | the count of a list is the position of its first NULL: every slot before it is non-NULL, and it stays within a NULL-terminated list |
| CArrays.CountEntries | main.c:82-87 | the counting loop returns 0 for a NULL list and otherwise the number of entries before the terminator |
| BaudTable.ConvSpd | term.c:118-129 | the `do … while` scan returns what `Resolve` gives: the token of the first matching row, or the wrong-speed error once the sentinel has been looked at |
| BaudTable.TableIsAscending | term.c:79-111 | the last row is the `{0,0}` sentinel, every rate before it is positive, and the rates strictly increase |
| BaudTable.RowsIncrease | term.c:79-110 | any earlier rate is below any later one |
| BaudTable.RowsAreDistinct | term.c:79-111 | at most one row, the sentinel included, matches a given speed |
| BaudTable.ScanReachesRow | term.c:121-125 | scanning from any earlier row for a row's speed stops at that row |
| BaudTable.ResolveTableRate | term.c:79-109 | each of the 30 rates resolves to the token on its own row |
| BaudTable.ScanRejects | term.c:121-127 | a speed that is neither a rate nor 0 passes every row and is rejected |
| BaudTable.ResolveSpec | term.c:118-128 | the lookup fails exactly for speeds that are neither a table rate nor 0; a failure carries the speed; a token it finds is the one on a row with that speed |
| BaudTable.ResolveZero | term.c:110 | speed 0 matches the sentinel and yields token 0 instead of an error |
| BaudTable.ScanReachesSentinel | term.c:121-126 | scanning for 0 passes every rate and stops on the sentinel |
| BaudTable.CommonRates | term.c:92-96 | 9600 gives `B9600` (octal 015), 57600 gives `B57600`, and 115200 gives `B115200` (octal 010002) |
| PortOpen.TtysOpen | term.c:255-264 | the loop over the NULL-terminated lists gives the outcome of `TtysOpenSpec` on their entries |
| PortOpen.PerPortInOrder | term.c:258-263 | with a per-port list, ports are handled in order, the i-th with the i-th speed's token; the loop completes exactly when every speed resolves, and otherwise stops at the first wrong speed after the ports before it |
| PortOpen.CommonSpeedForAll | term.c:256-259 | without a list, a wrong common speed stops the call before any port, even with no ports; otherwise every port gets the single common token |
| PortOpen.ZeroGlobalSpeedDereferencesNull | term.c:257-259 | common speed 0 with no list stops at the first port on the NULL speed list |
| TtySettings.MakeRaw | term.c:157-162 | the new settings are the old ones with `c_lflag`, `c_oflag` cleared, `c_cflag` = speed, CS8, CREAD and CLOCAL, VMIN 0, VTIME 5; `c_iflag`, `c_line` and the other control characters are kept |
| TtySettings.TokenValuesAreBaudFields | term.c:48-77 | every Linux speed token lies within the CBAUD bits |
| TtySettings.TableTokensAreTokenValues | term.c:79-109 | every token in the table is a Linux speed token |
| TtySettings.CflagDecodes | term.c:160 | the speed, character size, receiver and local-line bits can be read back from the new `c_cflag` |
| TtySettings.MakeRawIdempotent | term.c:157-162 | applying the change to its own result changes nothing |
| TtySettings.MakeRawKeepsOnly | term.c:157-162 | old settings that agree on `c_iflag`, `c_line` and the other control characters give the same new settings |
| TtySettings.TtyInitRunsAt115200 | term.c:42 | with the revision's `BAUD_RATE`, the line is set to 115200 baud |
| Console.ConSigSpec | term.c:233-238 | `rb < 1` does nothing; `q` quits with status 0 and writes nothing; any other value writes exactly one byte, `(char) rb` |
| Console.SentByteIsTyped | term.c:237-238 | a console byte 1..255 other than `q` reaches the device unchanged |
| Startup.GlobPars.constructor | cmdlnopts.h:32-40 | the parameters from `parse_args` are NULL or NULL-terminated lists, with `rest_pars_num` free parameters |
| Startup.FillPorts | main.c:58-66 | the reallocated list has a slot for every port and the terminator: the `-p` ports first, then the free parameters in order, then NULL |
| Startup.AppendFreeParams | main.c:50-67 | the port list becomes the `-p` ports followed by the free parameters; without free parameters it is left untouched; nothing else changes |
| Startup.RunStartup | main.c:45-93 | the outcome is `Startup` of the parameters as given; the speed list and the other fields are left unchanged |
| Startup.RunsIffValidated | main.c:45-93 | `ttys_open` is reached exactly when the common speed check, the port check and the count check all pass |
| Startup.WrongGlobalSpeedRefused | main.c:45-46 | without a per-port list, a non-default common speed that is not in the table (and not 0) is refused whatever ports are named |
| Startup.GlobalSpeedIgnoredWithList | main.c:45-48 | with a per-port list the common speed is neither checked nor used |
| Startup.MergedPortsInOrder | main.c:50-66 | the merged list has the previous port count plus `rest_pars_num` entries: the `-p` ports in order, then the free parameters in order; without free parameters it is unchanged |
| Startup.NoPortsIff | main.c:68-69 | startup fails with "at least name of one port" exactly when neither route names a port |
| Startup.CountMismatchRefused | main.c:78-91 | a per-port list whose length differs from the port count is refused, reporting both counts |
| Startup.PerPortSpeedsApplied | main.c:78-93 | with valid per-port speeds, the i-th merged port runs at the i-th speed's token |
| Startup.DefaultSpeedForAll | cmdlnopts.c:43 | without `-t` and `-b` every port runs at `B57600` |
| Startup.ZeroGlobalSpeedReachesNullList | main.c:45-46 | `-t 0` passes the up-front check, then stops in `ttys_open` on the NULL speed list |
| Startup.ReallocAsWrittenTooSmall | main.c:58 | the allocation as written never has a slot for the NULL terminator, and with one port it has no slot at all |

## Left out

- `read_tty_and_console` (term.c:192-231) is not modelled. It is `select`/`read`/`getchar` plumbing over real descriptors, and the loop that used it is commented out (main.c:94-111).
- The `open` and `ioctl` calls of `tty_init` and `term_quit`, the console restore, and process exit are device I/O. They are left out, and `restore_tty` is an empty stub. Only the settings record built at term.c:157-162 is modelled. `Quit(0)` stands for `term_quit(0)`.
- `signals`, the `signal(...)` wiring, `setup_con` and `setbuf` in `main` are asynchronous or console set-up, with no effect on the outcome modelled here.
- `parse_args`, `cmdlnopts.c` and `cmdlnopts.h` wrap an argument-parsing library that is not part of this model. Their result is an input: `GlobPars` built by its constructor.
- A failed `realloc` (`ERR("Realloc")`, main.c:59) is memory exhaustion and is not modelled.
- The debug output (`DBG`) is not modelled. The (port, token) pairs `ttys_open` reports are the outcome's `visited` list.
- Per-device buffering, flush policy, log files and teardown do not exist in these files and are not modelled.
- A non-NULL but empty `-p` list: `main` tests only whether the port list is NULL. Such a list, which `parse_args` does not produce, passes the check and makes `ttys_open` handle no port.
- The `(char) rb` conversion: values above 255 are taken as their low eight bits, which is what the usual compilers do. The conversion is implementation-defined in C.
- C `int` widths are not modelled. Speeds are only compared, never computed on, so no wrap-around arises.

## Findings

| source | as written | input that shows it | evidently intended | confidence | as-written member | corrected member |
|---|---|---|---|---|---|---|
| main.c:58 | `realloc(Glob->ports, gpamount + 1)` allocates `gpamount + 1` bytes, not pointers | one free parameter and no `-p`: 2 bytes are allocated, and two 8-byte pointers are written at indices 0 and 1 | allocate `gpamount + 1` pointer slots | high; not executed | Startup.ReallocAsWrittenTooSmall | Startup.FillPorts |
