# EcoBus WhatsApp quote bot — decision logic in Dafny

This project models the decision logic of the EcoBus WhatsApp quoting bot. It has four parts:

- **The quote conversation** (`procesar_flujo`).
  - Each sender has one session in the `usuarios` table.
  - A session walks `nombre → correo → pasajeros → fecha_viaje → origen → destino → hora_ida → hora_vuelta → telefono → confirmar`.
  - Each accepted answer stores one field and moves one state on.
  - An e-mail, date or time that fails validation leaves the session untouched and sends a warning.
  - In `confirmar` the session is always removed. A yes also tries to append one spreadsheet row.
  - `QuoteBot` is a class whose `usuarios` map is updated in place. The messages sent and the rows appended are recorded in two ghost traces, `outbox` and `sheet`.
  - `ProcesarFlujo` is proved against the pure function `Transition`. The lemmas are stated about `Transition` and `Run`, which is a sequence of answers.
- **Vehicle-class pricing** (`vehiculo_por_pasajeros`, `calcular_precio`).
  - The passenger count picks exactly one class: van, taxibus or bus.
  - The price is a linear cost plus a 35 % margin.
- **Address resolution** (`normalizar_texto`, `fallback_comuna`, `resolver_direccion`).
  - The stages are a length guard, normalisation, the known-places dictionary, the external provider, the first comuna of the ordered table whose name occurs in the text, and finally an error.
  - The dictionary and the provider are parameters. `Resolution.consulted` records the queries sent to the provider.
- **The region bounding-box decision** (`normalizar_direccion`, `debe_usar_bbox_rm`, and the parameters `geocode` builds).
  - Any out-of-region keyword vetoes the box.
  - Otherwise any ambiguous keyword forces it.
  - Otherwise no box is sent.

Supporting modules:

- `Text` models Python `str.lower`, `str.strip`, `in`, `str.replace` and `re.sub(r"\s+", " ", …)`, restricted to ASCII.
- `Dates` models `strptime(…, "%d-%m-%Y")`, following CPython's field patterns, and `strftime("%d-%m-%Y")`.
- `Comunas` holds the comuna table, in its order.
- `Wrappers` holds `Option` and `Result`.

Two observations about `COMUNAS_RM`:

- Six keys contain capital letters: "calera de Tango", "Paine", "San Bernardo", "Cerrillos", "El Bosque" and "Isla de Maipo". Normalised text has no capital letter, so these six entries can never be the fallback result. `Resolver.CapitalisedKeysNeverMatch` and `Resolver.CapitalisedKeys` prove this against the table exactly as it is written.
- The file is missing a comma after the "peñaflor" entry. The table here is the evident ordered transcription with that comma added.

## Model

| member | source | states |
|---|---|---|
| Pricing.VehiculoPorPasajeros | pricing_engine.py:11-17 | van exactly for counts up to 15 (zero and negatives included), taxibus exactly for 16..30, bus exactly from 31 on |
| Pricing.CalcularPrecio | pricing_engine.py:20-34 | the class is `vehiculo_por_pasajeros(pasajeros)`; base cost is km times the class's km rate plus hours times its hourly rate; utilidad is 0.35 of it; final price is 1.35 times the base |
| Pricing.VehicleMonotone | pricing_engine.py:11-17 | more passengers never select a smaller class (van < taxibus < bus) |
| Pricing.LargeGroupsGetOneBus | pricing_engine.py:16-22 | any count above 30 is priced as one bus, with no split over vehicles |
| Pricing.PriceBounds | pricing_engine.py:24-26 | non-negative km and hours give 0 ≤ base cost ≤ final price |
| Pricing.SameHourlyRate | pricing_engine.py:3-7 | two classes' base costs differ only by km times the difference of their km rates |
| Pricing.Costos | pricing_engine.py:3-7 | every class has the hourly rate 13080 and a positive km rate |
| Pricing.CostoBase | pricing_engine.py:24 | non-negative km and hours give a non-negative base cost |
| Text.Lower | geocoding_resolver.py:14 | same length, each character lower-cased, and no upper-case ASCII letter is left |
| Text.TrimLeft | geocoding_resolver.py:14 | the result is a suffix of the input, everything cut off is whitespace, and it does not start with whitespace |
| Text.TrimRight | geocoding_resolver.py:14 | the result is a prefix of the input, everything cut off is whitespace, and it does not end with whitespace |
| Text.Strip | geocoding_resolver.py:14 | the result is the slice of the input starting at some position `a`, with only whitespace before it and after it, and with no whitespace at either end of its own |
| Text.StripPreservesNoUpper | geocoding_resolver.py:14 | stripping a text without capitals leaves none |
| Text.StripOfPadded | geocoding/maps.py:7 | whitespace added around a text does not change its strip |
| Text.StripIdempotent | geocoding/maps.py:7 | stripping twice is stripping once |
| Text.Replace | geocoding_resolver.py:25-26 | every character of `s.replace(k, v)` comes from `s` or from `v`; when `k` does not occur in `s` the result is `s` itself; when it does, `v` occurs in the result |
| Text.ReplaceLeftmost | geocoding_resolver.py:25-26 | when the first occurrence of `k` in `s` starts at `i`, `s.replace(k, v)` is the text before `i`, then `v`, then the replacement of the rest after that occurrence: the scan is left to right and occurrences do not overlap |
| Text.ReplaceSkipsPrefix | geocoding_resolver.py:25-26 | a prefix in which no occurrence of `k` starts comes out of `replace` unchanged, followed by the replacement of what follows it |
| Text.ReplaceBySelf | geocoding_resolver.py:23 | replacing a key by itself changes nothing |
| Text.CollapseSpaces | geocoding_resolver.py:28 | the words (maximal runs of characters that are not whitespace, as `str.split()` returns them) are those of the input, in order; the characters that are not whitespace are those of the input, in order; every whitespace character left is a blank; no two whitespace characters are side by side; the result is empty, starts with whitespace and ends with whitespace exactly when the input does; together these fix the result to one blank between consecutive words and one at each end where the input had whitespace there |
| Text.UpperKeyNotInLowerText | geocoding_resolver.py:56 | a key with a capital letter is not a substring of a text without capitals |
| Text.IsSubstring | geocoding_resolver.py:56 | Python `in` on strings: a key that occurs is no longer than the text, and the empty key occurs in every text (the same test is used at geocoding/maps.py:32 and 38) |
| Resolver.ReemplazosWellFormed | geocoding_resolver.py:16-23 | every replacement key is non-empty and every replacement value is lower case |
| Resolver.ReplaceEach | geocoding_resolver.py:25-26 | the loop applies the replacements one after the other, first pair first |
| Resolver.NormalizarTexto | geocoding_resolver.py:13-29 | the result is the lower-cased, stripped, replaced and collapsed text; it has no capital letter and no double whitespace |
| Resolver.Normalized | geocoding_resolver.py:13-29 | normalised text never contains an upper-case ASCII letter (the input is lower-cased and every replacement value is lower case) and never has two whitespace characters side by side |
| Resolver.MallReplacementIsIdentity | geocoding_resolver.py:23 | the `"mall "` replacement has no effect on any text |
| Resolver.FirstMatch | geocoding_resolver.py:54-58 | the index returned is the first entry, from `from` on, whose key occurs in the text; none means no key from there on occurs |
| Resolver.FallbackCoord | geocoding_resolver.py:54-58 | there is a result exactly when some table key occurs in the text; the result is the coordinates of an entry whose key occurs and before which no key occurs |
| Resolver.FallbackComuna | geocoding_resolver.py:54-58 | the loop with early return gives exactly `FallbackCoord`: the coordinates of the first entry in table order whose key occurs, or none, standing for the `ValueError` |
| Resolver.ResolverDireccion | geocoding_resolver.py:61-85 | the provider is asked at most once |
| Resolver.Lookup | geocoding_resolver.py:65-85 | on the normalised text: a dictionary key gets its value with no provider query; any other text sends exactly one query, the text plus ", region metropolitana, chile"; at most one query in every case |
| Resolver.ShortInputRejected | geocoding_resolver.py:62-63 | an input that is empty or strips to fewer than 3 characters fails with the invalid-address error, and the provider is not asked |
| Resolver.EmptyInputRejected | geocoding_resolver.py:62-63 | the empty input fails with the invalid-address error |
| Resolver.KnownPlaceWins | geocoding_resolver.py:65-69 | a normalised text that is a dictionary key gets its value, and the provider is not asked |
| Resolver.ProviderBeforeFallback | geocoding_resolver.py:71-76 | otherwise exactly one query, the text plus ", region metropolitana, chile", is sent, and a provider answer is the result |
| Resolver.FallbackAfterProvider | geocoding_resolver.py:78-85 | when the provider fails, the comuna fallback's answer is the result; when both fail, the result is the final error carrying the original input |
| Resolver.SantiagoFirst | comunas_rm.py:3-4 | any text containing "santiago" falls back to Santiago's centroid, because it is the first entry |
| Resolver.CapitalisedKeysNeverMatch | comunas_rm.py:15-20 | a table key with a capital letter never occurs in normalised text and is never the first match |
| Resolver.CapitalisedKeys | comunas_rm.py:15-20 | entries 11 to 16 of the table (the six keys named above) each contain a capital letter |
| RegionBox.NormalizarDireccion | geocoding/maps.py:6-7 | the result is the slice of the lower-cased input left once the whitespace before and after it is cut off; it has no upper-case letter and no whitespace at either end |
| RegionBox.NormalizarDireccionIdempotent | geocoding/maps.py:6-11 | normalising twice is normalising once, so a normalised query gets the same bbox decision |
| RegionBox.UsaBboxRM | geocoding/maps.py:10-42 | none: this predicate is the quantified definition of the decision (no out-of-region keyword and some ambiguous keyword in the normalised query) that `DebeUsarBboxRM` is proved equal to |
| RegionBox.AnyKeywordIn | geocoding/maps.py:31-39 | the keyword loop with early return finds a keyword exactly when some keyword of the list occurs in the query |
| RegionBox.DebeUsarBboxRM | geocoding/maps.py:10-42 | true exactly when no out-of-region keyword occurs in the normalised query and some ambiguous keyword does; any out-of-region keyword forces false |
| RegionBox.OutOfRegionVetoes | geocoding/maps.py:13-33 | an out-of-region keyword vetoes the box even beside an ambiguous one |
| RegionBox.AmbiguousForces | geocoding/maps.py:35-39 | with no out-of-region keyword, any ambiguous keyword forces the box |
| RegionBox.DefaultNoBox | geocoding/maps.py:41-42 | when no ambiguous keyword occurs, no box is sent |
| RegionBox.DecisionIgnoresCaseAndPadding | geocoding/maps.py:10-11 | changing the ASCII case of a query, or adding whitespace around it, does not change the decision |
| RegionBox.GeocodeRequest | geocoding/maps.py:45-57 | URL is the places prefix, the address and ".json"; `bbox` is present exactly when the decision holds, with value "-71.6,-33.7,-70.3,-33.2"; the other keys are exactly access_token, country "CL", limit 1 and language "es" |
| Dates.ParseDate | bot.py:28 | every date parsed is a real calendar date with a year from 1 to 9999 |
| Dates.FormatDate | bot.py:32 | the printed date has ten characters: dashes at positions 2 and 5 and a decimal digit everywhere else, so day and month are zero-padded; with `ParseFormat` this fixes the output as DD-MM-YYYY |
| Dates.ParseFormat | bot.py:28-32 | parsing a printed date gives back the same date |
| Conversation.SheetRow | bot.py:88-93 | a row exists exactly when all nine fields do; it is the timestamp, then Nombre, Correo, Pasajeros, Fecha Viaje, Origen, Destino, Hora Ida, Hora Regreso, Telefono, in that order |
| Conversation.Accepts | bot.py:5-72 | none: this predicate is the acceptance test per state (the e-mail validator, a parsed date not before today, the time validator; anything in the free-text states; nothing in confirmar or other states) |
| Conversation.Stored | bot.py:5-72 | every state but fecha_viaje stores the answer verbatim |
| Conversation.StoredReparses | bot.py:28-32 | the date stored for a parsable answer parses back to the same date |
| Conversation.DateStep | bot.py:26-37 | none: the `fecha_viaje` branch of `Transition`; what it does is stated by TodayAccepted, PastDateRejected, RejectedInputChangesNothing, StoredDateReparses and QuoteBot.AnswerDate |
| Conversation.ConfirmStep | bot.py:77-104 | none: the `confirmar` branch of `Transition`; what it does is stated by ConfirmYes, ConfirmOther, SheetFailureSwallowed and QuoteBot.AnswerConfirm |
| Conversation.Transition | bot.py:1-104 | none: `procesar_flujo` for one session as a value; its properties are the lemmas below, starting with TransitionShape |
| Conversation.TransitionShape | bot.py:1-104 | only confirmar ends the session, and always does; only confirmar writes a row; a session that goes on is unchanged or in the next state; every state but other sends at least one message |
| Conversation.CollectingStep | bot.py:5-74 | in a collecting state, an accepted answer stores exactly its state's field and moves one state on; a rejected one leaves the session as it was; no row is written |
| Conversation.RejectedInputChangesNothing | bot.py:11-64 | a rejected e-mail, date or time leaves state and fields unchanged, writes no row and sends exactly one warning to the sender |
| Conversation.FreeTextAccepted | bot.py:5-72 | nombre, pasajeros, origen, destino and telefono store the text verbatim in their own field only and move one state on |
| Conversation.TodayAccepted | bot.py:28-34 | a travel date equal to today is accepted and stored re-printed |
| Conversation.PastDateRejected | bot.py:29-31 | a travel date before today leaves the session unchanged and sends the past-date warning |
| Conversation.StoredDateReparses | bot.py:28-32 | the stored Fecha Viaje parses back to the date the answer gave |
| Conversation.ConfirmYes | bot.py:78-99 | a yes ends the session and sends acknowledgement, notification and menu; a row is appended exactly when the spreadsheet call succeeds and all fields exist; the row is the timestamp and the nine fields in order |
| Conversation.ConfirmOther | bot.py:101-104 | any other answer ends the session, appends nothing and sends the correction message and the menu |
| Conversation.SheetFailureSwallowed | bot.py:87-99 | a failing spreadsheet call writes no row; the session is still removed and the menu is still sent last |
| Conversation.TransitionKeepsWellFormed | bot.py:1-104 | a session holding the fields of every state it has passed keeps that property; on such a session a yes with a working spreadsheet always writes its row |
| Conversation.FieldsBeforeConfirmComplete | bot.py:88-93 | having passed every collecting state means holding all nine fields |
| Conversation.TableKeepsWellFormed | bot.py:1-104 | one call keeps every session of the table well-formed |
| Conversation.AdvanceKeepsWellFormed | bot.py:5-72 | storing the current state's field and moving on keeps a session well-formed |
| Conversation.RunAccepted | bot.py:5-72 | an accepted answer in the k-th state continues the run from the session with the k-th field stored |
| Conversation.RunFollowsAcceptedPath | bot.py:5-72 | from the k-th state, a run of accepted answers is exactly the sequence of sessions that store one field per state |
| Conversation.AcceptedPathStates | bot.py:5-72 | along that sequence, the i-th session is in the state after the (k+i)-th |
| Conversation.AcceptedPathWellFormed | bot.py:5-72 | along that sequence, starting well-formed, the last session is well-formed |
| Conversation.NineStepsToConfirm | bot.py:5-72 | from a fresh session in nombre, nine accepted answers visit correo … confirmar in order and leave all nine fields filled |
| Conversation.QuoteBot.ProcesarFlujo | bot.py:1-104 | the sender's entry becomes the session `Transition` gives, or is popped; no other entry changes; the messages and the row are appended to the traces; a well-formed table stays well-formed |
| Conversation.QuoteBot.AnswerDate | bot.py:26-37 | the `fecha_viaje` branch: an unparsable or past date sends one warning and changes nothing; otherwise the re-printed date is stored and the state moves to origen |
| Conversation.QuoteBot.AnswerConfirm | bot.py:77-104 | the `confirmar` branch: the session is popped either way; on a yes the row is appended when it can be built and the spreadsheet call succeeds |

## Left out

- The HTTP calls are not modelled: `requests.get` in `geocode` and `geocode_mapbox`, `route`, and the other network helpers. The provider of `resolver_direccion` is the oracle parameter `provider`, where `None` stands for any exception `geocode_mapbox` raises. Its own parameters and fixed bbox are not modelled.
- The response parsing in `geocode` (geocoding/maps.py:59-66) is not modelled; only the URL and parameters are.
- `LUGARES_CONOCIDOS` is not part of this model; the known-places dictionary is the parameter `known`.
- The `MAPBOX_TOKEN` environment variable is the parameter `token`. When it is unset, Python sends `None`; that case is not modelled.
- `email_valido` and `hora_valida` are not part of this model. They are function-valued fields of `QuoteBot`, left uninterpreted.
- The clock and the spreadsheet are parameters of each call, in `Env`: today's date, the timestamp text, and whether `sheet.append_row` succeeds.
- The messaging collaborators only appear as events in the ghost trace `outbox`: `enviar_texto`, `mostrar_resumen`, `enviar_confirmacion`, `enviar_correo_notificacion` and `menu_principal`. Exceptions they might raise are not modelled.
- The recorded order of a sheet append relative to the acknowledgement message is lost, because `outbox` and `sheet` are separate traces.
- Conversation.QuoteBot.ProcesarFlujo: requires the sender to have a session. Python raises `KeyError` otherwise. Sessions are created by a caller that is not part of this model.
- Messages with no property attached are not modelled: the `print` on a failed append, and the exact texts of the prompts (modelled as an enumeration).
- Pricing.CalcularPrecio: exact reals stand in for Python floats, and `round` on the five returned figures is not modelled.
- Text.Lower: only ASCII letters are lower-cased. Python's full Unicode case mapping (for example "Ñ") is not modelled.
- `str.isspace` and `\s` are restricted to ASCII whitespace and the four separator controls. Unicode spaces are not modelled.
- Dates.ParseDate: only ASCII digits are accepted. Python's `\d` also accepts other Unicode decimal digits.
- Dates.FormatDate: always prints four year digits. glibc prints years below 1000 unpadded. In the running program, where today's date is after the year 1000, such dates are in the past and are rejected before printing.
- The comuna coordinates are transcribed as written. Nothing is asserted about them except Santiago's centroid, so the positive latitude of "valparaiso" is neither corrected nor checked.
- Resolver.ResolverDireccion: its own contract only bounds the provider queries. The full behaviour of each stage is stated in the lemmas beside it.
- These files have no multi-vehicle split, candidate disambiguation, correction mode, similarity scoring, national bounding-box check, or passenger and phone validation. The model follows the code and has none of them either.
- `maps.py`, `pdf_generator.py`, `geocoding/map_image.py` and `geocoding/refresh_token.py` are not part of this model. They are network, file and rendering code with no decision logic.
