# Appointment availability and booking, modelled in Dafny

This project models the booking core of a cosmetology studio's web system. It covers three parts:

- **Availability calculators.** There are three of them: `lib/availability.ts` for the Supabase site, `frontend/lib/availability.ts` for the Prisma site, and the Django view `ServicioViewSet.disponibilidad`. Each takes a service and a date and returns the free start times. A past date, a blacked-out date, or a weekday with no active schedule gives no slots. A missing service is an error. On "today" the cursor first steps past the current time in 30-minute steps. The walk then offers every grid point whose appointment ends by closing time and overlaps no non-cancelled appointment, using half-open intervals.
- **Write paths.** These are the two Next.js booking routes, the two client find-or-create routes, and the Django `CitaSerializer` / `CitaViewSet.create` pair together with the model constraints they rely on.
- **Booking pages.** There are two: the four-step wizard of the Supabase site and the single form of the Django-backed site.

Time of day is an `int` of minutes since midnight. A date is an `int` day ordinal, where ordinal 1 is a Monday, as in Python's `toordinal`. "Today" and "now" are inputs, and `now` is the current time rounded up to the whole minute. That rounding is exact for comparisons with whole-minute slot times.

A store read is a sequence of rows passed in. The reads are modelled as follows:

- `.single()` / `.maybeSingle()` yield a row only when exactly one row matches.
- `findUnique` is the first match.
- Django's `.get()` distinguishes none, one, and several rows.

The calculators are `method`s with the source's loops. Each is proved equal to a specification function (`Slots.Walk`, `Slots.CutoffStart`). Lemmas then prove what that function guarantees: it fits before closing, avoids overlaps, stays on the grid, is never before now, is ascending, and is complete.

Each route and page is a `class` whose fields are the table or the React state it changes. Each handler's `ensures` gives the whole new state. Invariants such as "no double booking" and "unique e-mail" are proved preserved.

## Model

| member | source | states |
|---|---|---|
| Calendar.DiaSemana | lib/availability.ts:33 | JavaScript weekday 0 (Sunday) maps to 6, every other d to d-1; the result is a schedule weekday 0..6 whose successor mod 7 is the JavaScript weekday |
| Calendar.DiaSemanaIsPyWeekday | frontend/lib/availability.ts:19 | the remapped `getDay()` of a date is its Python `weekday()`, so the TypeScript and Django schedules agree |
| Agenda.FromCode | backend/gestion/models.py:22 | a stored status code is a status exactly when it is P, C or A |
| Agenda.CodeRoundTrip | backend/gestion/models.py:22 | status codes and statuses correspond one to one |
| Agenda.Occupied | lib/availability.ts:54-58 | the busy intervals of a date are exactly the appointments on that date not in status A, each with its service's duration |
| Agenda.ConflictIsCollision | lib/availability.ts:77-81 | the conflict test over the busy list holds iff some non-cancelled appointment of the date overlaps the candidate |
| Slots.IsConflicting | lib/availability.ts:77-81 | a candidate conflicts iff some busy interval intersects it as half-open intervals (touching ends do not) |
| Slots.BookedStartIsNotOffered | frontend/lib/availability.ts:58-62 | the start time of a non-cancelled appointment of positive length is never offered |
| Slots.CutoffStart | lib/availability.ts:66-71 | the today cursor is at or after now and opening, on opening's 30-minute grid, and is the first such point (the one before it is before now) |
| Slots.AdvancePastNow | lib/availability.ts:68-70 | the `while (current < now) current += 30` loop ends at the cutoff start |
| Slots.GridOf30 | frontend/lib/availability.ts:68 | a point is on the 30-minute walk from a start iff it is the start plus a non-negative multiple of 30 |
| Slots.GridShift | frontend/lib/availability.ts:68 | a grid point of a later grid start is a grid point of the earlier start |
| Slots.HourGridInHalfHourGrid | lib/availability.ts:87 | every point of the 60-minute walk is a point of the 30-minute walk from the same start |
| Slots.WalkMembers | lib/availability.ts:73-88 | a time is in the walk iff it is a grid point from the cursor, ends by closing (equality allowed) and conflicts with no busy interval |
| Slots.WalkAscending | lib/availability.ts:83-87 | the walk's slots are strictly increasing |
| Slots.AscendingUnique | frontend/lib/availability.ts:64-68 | two ascending lists with the same members are equal |
| Slots.WalkIsUnique | frontend/lib/availability.ts:64-68 | the walk is the only ascending list of the offered times, so the output is determined by its inputs |
| Slots.CollectSlots | lib/availability.ts:73-88 | the slot loop returns the walk: ascending, and containing exactly the offered times |
| LibAvailability.GetAvailableSlots | lib/availability.ts:15-91 | past date or blackout row or no single active schedule row gives []; a missing service is an error exactly when those guards pass; otherwise the walk from the cursor |
| LibAvailability.SlotsMeetSpec | lib/availability.ts:60-90 | the slots are ascending and are exactly the hourly points from the cursor that fit before closing and collide with no non-cancelled booking; on today none is before now |
| FrontendAvailability.GetAvailableSlots | frontend/lib/availability.ts:4-72 | past date, blackout, missing or inactive schedule give []; a missing service is an error exactly when those pass; otherwise the 30-minute walk |
| FrontendAvailability.SlotsMeetSpec | frontend/lib/availability.ts:40-71 | the slots are ascending, each is the cursor plus a multiple of 30, ends by closing and collides with nothing, every such point is present, and none is before now on today |
| GestionDisponibilidad.AdvancePastNowGuarded | backend/gestion/views.py:74-78 | the cutoff loop guarded by `now > opening` ends where the unguarded loop does |
| GestionDisponibilidad.HasConflict | backend/gestion/views.py:84-91 | the `for`/`break` loop sets the flag iff some appointment overlaps the candidate |
| GestionDisponibilidad.GenerateSlots | backend/gestion/views.py:80-96 | the outer loop returns the 30-minute walk from the cursor |
| GestionDisponibilidad.Disponibilidad | backend/gestion/views.py:25-98 | an inactive or missing service is a 404; a missing `fecha` or an unparsable one is a 400 with its message; a past or blocked date gives []; an unconfigured weekday gives [] with 'Día no configurado', an inactive one [] with 'Día no laboral' |
| GestionDisponibilidad.SlotsMeetSpec | backend/gestion/views.py:64-98 | with a single active schedule row the slots are ascending, 30 minutes apart from the cursor, fit before closing, collide with nothing, are complete, and are never before now on today |
| CalculatorVariants.LibBloqueoIsMembership | lib/availability.ts:24-30 | with one blackout row per date, the `.single()` lookup and the `findUnique` lookup both find a row iff the date is blocked |
| CalculatorVariants.ConfigLookupsAgree | lib/availability.ts:33-41 | with one schedule row per weekday, querying only active rows and checking `activo` after the lookup agree |
| CalculatorVariants.ServiceLookupsAgree | lib/availability.ts:43-49 | with unique service ids both service lookups find the same row |
| CalculatorVariants.LibSlotsWithinFrontend | lib/availability.ts:87 | on a snapshot with unique keys the two TypeScript calculators fail alike, and every hourly slot is also a half-hourly slot |
| CalculatorVariants.DjangoAgreesWithFrontend | backend/gestion/views.py:96 | for an active service and a well-formed date, the Django view and the Prisma calculator return the same list |
| CalculatorVariants.ActiveServiceIsFound | backend/gestion/views.py:21-30 | with unique service ids the view's lookup among active services finds the same row as the Prisma `findUnique` |
| CalculatorVariants.ScheduleRowsAgree | backend/gestion/views.py:50-52 | with one schedule row per weekday `get()` never meets two rows, and finds a row exactly when the Prisma lookup does, the same row |
| SlotExamples.EndAtClosingIsAllowed | lib/availability.ts:73 | an 8-hour service in a 09:00-17:00 day gets exactly the 09:00 slot |
| SlotExamples.GridIsHalfHourly | frontend/lib/availability.ts:54 | a 45-minute service in 09:00-10:00 gets only 09:00 |
| SlotExamples.MorningBusy | frontend/lib/availability.ts:32-38 | of a confirmed and a cancelled booking only the confirmed one becomes a busy interval |
| SlotExamples.MorningWalk | frontend/lib/availability.ts:54-69 | the 30-minute walk from 09:00 to 12:30 around a 10:00-11:00 booking is exactly 09:00, 09:30, 11:00, 11:30, 12:00 |
| SlotExamples.BookingBlocksItsInterval | frontend/lib/availability.ts:58-62 | in a 09:00-12:30 day a 60-minute booking at 10:00 leaves a 30-minute service exactly 09:00, 09:30, 11:00, 11:30 and 12:00; a cancelled booking at 12:00 removes nothing |
| SlotExamples.TodayStartsAtNextHalfHour | frontend/lib/availability.ts:47-52 | on today at 10:05 the first slot is 10:30 |
| Text.TrimSpec | app/api/citas/route.ts:115 | `trim()` leaves no white space at either end, removes only leading white space in front, and is empty iff the text is all white space |
| Text.ParseInt | frontend/app/reservar/page.tsx:102 | `parseInt` without a radix reads base 16 after a `0x`/`0X` marker and base 10 otherwise, and is NaN exactly when no digit of that base follows the white space, sign and marker |
| Text.ParseIntHexMarker | frontend/app/reservar/page.tsx:102 | `parseInt("0x1A")` is 26 |
| Text.ParseIntBareMarker | frontend/app/reservar/page.tsx:102 | `parseInt("0x")` is NaN |
| Text.ParseIntOfDecimal | frontend/app/reservar/page.tsx:102 | `parseInt` reads back the decimal text of a natural number |
| CitasRoute.CitasTable.Post | app/api/citas/route.ts:34-124 | a body that is not JSON is a 500; a body failing the UUID/date/time shapes is a 400 that inserts nothing; an occupied slot is a 400 with the table unchanged; an insert fault is a 500; otherwise exactly the submitted row is added as Pendiente; the e-mail outcome never matters; no double booking is preserved |
| CitasRoute.TakenIffActiveOccupant | app/api/citas/route.ts:50-60 | without double bookings the guard refuses iff a non-cancelled row has the same date and start, so a slot whose only occupant is cancelled is accepted |
| CitasRoute.AppendFreeSlot | app/api/citas/route.ts:63-76 | inserting into a slot no active row holds keeps the table free of double bookings |
| CitasRoute.OverlapWithOtherStartIsNotTaken | app/api/citas/route.ts:53-54 | the guard compares start times only: a 10:00 booking does not block 10:30 |
| CitasRoute.NombreCliente | app/api/citas/route.ts:115 | the WhatsApp name is `cliente_nombre` when non-empty, else the trimmed "nombre apellido" |
| CitasRoute.NombreWithoutApellido | app/api/citas/route.ts:115 | without `apellido` the name is the stored `nombre` itself, the joining space trimmed away |
| CitasRoute.TelefonoCliente | app/api/citas/route.ts:116 | the WhatsApp phone is never empty: a non-empty `cliente_telefono`, else a non-empty stored phone, and 'No indicado' when both are missing or empty |
| FrontendCitasRoute.CitasTable.Post | frontend/app/api/citas/route.ts:7-76 | the handler's response and new table are those of the route as written |
| FrontendCitasRoute.PostMeetsGuard | frontend/app/api/citas/route.ts:13-39 | on a table with a unique slot key: 400 iff a non-cancelled row holds the slot; a complete request for a slot no row holds is created unless the store fails; a creation appends exactly the submitted row as Pendiente; refusals change nothing; the key stays unique |
| FrontendCitasRoute.AppendNewSlot | frontend/app/api/citas/route.ts:27-39 | creating a row for a slot not in the table keeps the key unique |
| FrontendCitasRoute.CancelledSlotCannotBeRebooked | frontend/app/api/citas/route.ts:22-39 | as written, a complete request for a slot held only by a cancelled row ends in 500 |
| FrontendCitasRoute.CorrectedRebooksCancelledSlots | frontend/app/api/citas/route.ts:22-39 | with cancelled rows ignored by lookup and key, a complete request is booked iff every row at the slot is cancelled, and no double booking arises |
| ClientesRoute.ApellidoOrDefault | app/api/clientes/route.ts:43 | a missing or empty surname is stored as 'ClienteWeb' |
| ClientesRoute.RejectsBeforeLookup | app/api/clientes/route.ts:7-25 | a non-JSON body is a 500; a short or missing name or a refused e-mail is a 400; the table is untouched |
| ClientesRoute.FindOrCreate | app/api/clientes/route.ts:30-49 | with unique e-mails: the id of the client with the e-mail is returned iff one exists, table unchanged; otherwise exactly one row with the submitted fields is added, or 500; e-mails stay unique |
| ClientesRoute.PostIdempotent | app/api/clientes/route.ts:30-38 | repeating a request returns the same id and adds nothing |
| ClientesRoute.ClientesTable.Post | app/api/clientes/route.ts:14-54 | the handler's response and new table are those of the route |
| FrontendClientesRoute.FindOrCreate | frontend/app/api/clientes/route.ts:10-32 | an existing e-mail returns that stored row and adds nothing; a new e-mail with a name and no store failure is created (201) with exactly the submitted fields and the surname defaulted, after which the same request finds it; a 500 happens exactly for a new e-mail without a name or with a store failure, and changes nothing; e-mails stay unique |
| FrontendClientesRoute.ClientesTable.Post | frontend/app/api/clientes/route.ts:4-33 | the handler's response and new table are those of the route, any throw being a 500 |
| GestionModels.SortedUniqueIsOrdered | backend/gestion/models.py:29-30 | under `unique_together` the `(fecha, hora_inicio)` ordering has no ties, and a strictly ordered listing satisfies the constraint |
| GestionModels.OrderedListingIsDeterministic | backend/gestion/models.py:30 | two strictly ordered listings of the same appointments are identical |
| GestionModels.BloqueoLookupIsSingle | backend/gestion/models.py:34 | with unique blackout dates at most one row matches a date, and `.exists()` agrees with a single-row lookup |
| GestionModels.EmailIdentifiesCliente | backend/gestion/models.py:16 | two clients with the same e-mail are the same client |
| GestionSerializers.ValidateFecha | backend/gestion/serializers.py:42-49 | a date with a blackout row is refused with the blackout message; any other date is returned unchanged |
| GestionSerializers.FieldErrorsOf | backend/gestion/serializers.py:19-49 | each field error appears exactly when that field's own check fails: unknown client or service key, unparsable date, blocked date, unparsable time |
| GestionSerializers.Validate | backend/gestion/serializers.py:19-49 | valid iff both keys exist, the date parses and is not blocked, the time parses and no appointment of any status holds the slot; the validated data are the submitted fields |
| GestionSerializers.BlackoutIsAFieldError | backend/gestion/serializers.py:42-48 | a blocked date is always refused with the date's own field error |
| GestionSerializers.EstadoIsReadOnly | backend/gestion/serializers.py:40 | the submitted `estado` never changes validation |
| GestionCreate.CreateMeetsConstraints | backend/gestion/views.py:128-133 | a booking is created iff validation passes; it carries the submitted fields and status Pendiente, is the only row added, and `unique_together` still holds; a refusal changes nothing |
| GestionCreate.CancelledSlotStaysTaken | backend/gestion/models.py:29 | a slot held by a cancelled appointment is refused with the uniqueness error |
| GestionCreate.CitaViewSet.Create | backend/gestion/views.py:128-173 | the response and table are those of validate-then-save; an e-mail failure never changes the 201 |
| ReservarWizard.MissingFieldOrder | app/reservar/page.tsx:109-120 | name, then e-mail, then phone: the first all-white-space field gives its message, and none is missing iff all three have content |
| ReservarWizard.FailureMessage | app/reservar/page.tsx:146-150 | a failed submit shows the server's non-empty `error`, else 'Error al procesar la reserva.' |
| ReservarWizard.Reservar.constructor | app/reservar/page.tsx:37-51 | the wizard starts at step 1 with an empty form and no slots |
| ReservarWizard.Reservar.HandleServiceSelect | app/reservar/page.tsx:91-94 | selecting a service records it, clears the slot and moves to step 2, keeping the step invariant |
| ReservarWizard.Reservar.HandleNextStep | app/reservar/page.tsx:96-99 | at step 2 without both date and slot the step stays; otherwise it increases by one; step 3 is reached only with both |
| ReservarWizard.Reservar.Back | app/reservar/page.tsx:197-210 | the back buttons go one step back and keep the invariant |
| ReservarWizard.Reservar.DateChange | app/reservar/page.tsx:198 | a new date clears the chosen slot and changes nothing else |
| ReservarWizard.Reservar.SlotSelect | app/reservar/page.tsx:199 | choosing a slot changes only `hora_inicio` |
| ReservarWizard.Reservar.HandleInputChange | app/reservar/page.tsx:101-103 | a client field edit changes only that field |
| ReservarWizard.Reservar.LoadSlots | app/reservar/page.tsx:70-89 | slots are fetched only with a date and a service; a missing `horarios` becomes []; a failed fetch keeps the old list |
| ReservarWizard.Reservar.HandleSubmit | app/reservar/page.tsx:105-154 | a missing field stops the submit with its message and sends nothing; otherwise the form's data are sent, success moves to step 4 and failure shows the failure message; from step 3 a request always has a service, date and slot |
| FrontendReservarWizard.DiasLaborales | frontend/app/reservar/page.tsx:67-70 | the working days are the `dia_semana` of the active entries, in input order |
| FrontendReservarWizard.DiasLaboralesMembers | frontend/app/reservar/page.tsx:67-70 | a weekday is a working day iff an active entry names it |
| FrontendReservarWizard.EsDiaLaboral | frontend/app/reservar/page.tsx:83-93 | '' is never a working day; otherwise a date is one iff it parses and its remapped weekday is listed |
| FrontendReservarWizard.WorkingDayMatchesSchedule | frontend/app/reservar/page.tsx:86-92 | a date is a working day iff an active schedule entry has the date's Python weekday |
| FrontendReservarWizard.ParseServicioIdOfOption | frontend/app/reservar/page.tsx:101-103 | an option value written from a service id reads back as that id |
| FrontendReservarWizard.RejectionMessage | frontend/app/reservar/page.tsx:163-166 | a 400 shows the first non-field error when it is non-empty, else the generic conflict message |
| FrontendReservarWizard.MessagesForBookingErrors | frontend/app/reservar/page.tsx:163-166 | against the booking view a taken slot shows the uniqueness message, a blocked date only the generic one |
| FrontendReservarWizard.Reservar.constructor | frontend/app/reservar/page.tsx:38-52 | the form starts empty with no working days, no message and not loading |
| FrontendReservarWizard.Reservar.LoadConfig | frontend/app/reservar/page.tsx:56-80 | a loaded schedule sets the working days; a failure sets the load error |
| FrontendReservarWizard.Reservar.HandleChange | frontend/app/reservar/page.tsx:96-119 | each input sets its field, `servicio_id` through `parseInt` or null; a date change warns iff the date is not a working day, and is kept either way |
| FrontendReservarWizard.Reservar.HandleSubmit | frontend/app/reservar/page.tsx:122-173 | requests go out iff service, name, e-mail and date are filled in and the date is a working day (time and phone unchecked); success resets the form; each failure shows its message; loading ends false |

## Left out

- The current date and time are inputs. Timezones and local midnight are not modelled. This includes the naive-versus-aware comparison at backend/gestion/views.py:74-77, which is treated as a plain time-of-day comparison.
- Parsing and formatting are not modelled: date-fns `parse`/`format`, `strptime`/`strftime` and `new Date(...)`. Inputs carry the parsed date or time in minutes, or `None` for an unparsable text. Slots are minutes rather than `HH:MM` strings. The TypeScript calculators receive an already parsed date, so their handling of malformed date text is not modelled.
- Read failures of the store are not modelled. A read either returns its rows or is not modelled at all.
- The prisma schema is not part of this model. The unique `(fecha, hora_inicio)` key and the unique client `email` are taken from the `findUnique` selectors the routes use. The default status of a Prisma-created appointment is taken as Pendiente, as in the Django model.
- backend/gestion/models.py declares no `ConfiguracionHorario` and no `Cita.notas`, yet the views and the serializer use them. The schedule is modelled as declared by its use, and `notas` is not modelled on the Django side.
- The check-then-insert race between concurrent bookings is not modelled. Every handler runs alone.
- E-mail (Resend, `send_mail`) and WhatsApp (CallMeBot) delivery are not modelled. Their failure appears only as unused parameters of the handlers, so their contracts show it cannot change the response. The message texts are not modelled.
- CitasRoute.CitasTable.Post assumes the inserted row's client and service joins are present. With a missing join, composing the WhatsApp text would throw after the insert.
- zod's e-mail check is an input verdict (`emailValid`). `uuid()` is modelled as the 8-4-4-4-12 hexadecimal shape, without any check of the version or variant digits. JSON fields of a type other than string are not modelled. Neither are the `details` of zod's error.
- Text.Trim: only the ASCII white space is removed. JavaScript's `trim` also removes Unicode spaces and line terminators.
- Text.ParseInt: JavaScript white space is approximated by ASCII white space. Number precision beyond 2^53 is not modelled.
- ClientesRoute.ValidBody: the name's length is counted in characters. zod's `min(2)` counts UTF-16 code units, so a name made of one character outside the Basic Multilingual Plane passes zod but not the model.
- GestionSerializers.FieldErrorsOf: Django REST framework's own messages for missing or unknown keys are not modelled. The model records which field failed, not the text.
- ReservarWizard.Reservar.Back requires step 2 or 3, because those are the only steps that show a back button.
- The services list, `loadingInitial` and `loadingSlots`, the toasts about empty slot lists, and all rendering are not modelled.
- lib/availability.ts steps by 60 minutes (line 87), while frontend/lib/availability.ts and backend/gestion/views.py step by 30. The model keeps each step as written. CalculatorVariants.LibSlotsWithinFrontend relates the two grids.
- Only app/api/citas/route.ts lets a slot held only by a cancelled row be booked again. The Django view refuses such a slot through `unique_together` (GestionCreate.CancelledSlotStaysTaken). The Prisma route fails on it (see Findings). Each write path is modelled as written.

## Findings

| source | as written | input that shows it | evidently intended | confidence | as-written member | corrected member |
|---|---|---|---|---|---|---|
| frontend/app/api/citas/route.ts:22-39 | a row at the slot whose `estado` is 'A' passes the guard, then `create` breaks the unique `(fecha, hora_inicio)` key and the route answers 500 | a cancelled appointment at a date and 10:00, then a complete booking request for that date and 10:00 | a slot whose only appointment is cancelled can be booked again, as the `estado !== 'A'` test intends | medium, not executed | FrontendCitasRoute.CancelledSlotCannotBeRebooked | FrontendCitasRoute.CorrectedRebooksCancelledSlots |
