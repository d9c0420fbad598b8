# Health-system front end: triage scoring, role routing and page logic

This project models, in Dafny, the decision logic of a React front end for a
community health system. The model has three parts:

- **The triage scorer** (`calcularTriagem`). It turns six symptom answers into
  a point total from a fixed table. It classifies that total into one of
  four tiers ("Grave", "Moderado", "Leve", "Sem sintomas") by first-match
  thresholds, each tier with a recommendation. It also lists the detail
  lines of the symptoms that wrote one, in a fixed order. Around it sits the
  triage page: contact search, submit guard, payload, reset.
- **Role and route authorization.** The modules are `Roles`, `Routes`, `App`,
  `SideBar` and `Login`, and they cover four tables:
  - the route table (path, public flag, admitted role tags);
  - how the application registers that table with the router: the root
    outside any guard, every other route inside an authentication guard
    and a role guard, and a not-found catch-all;
  - the side menu's role → entries table;
  - the login page's role → landing page choice.

  Lemmas relate these tables:
  - each menu shows exactly the routes its role may reach;
  - the landing page is reachable and is the first menu entry;
  - the per-page guards agree with the route table.

  Lemmas also state where the tables drift apart:
  - the guards' redirect target `/login` has no route;
  - the "new patient" quick link `/utentes/criar` has no route;
  - the scorer's labels are never among the labels the dashboards count as
    critical.
- **Per-page list and form logic.** This covers the physician and
  professional dashboards, the prescription, appointment and patient pages,
  and the surveillance report:
  - filters, counters, the "mark as attended" update;
  - the timestamp and payload strings;
  - the physician display name;
  - the create-versus-update decision;
  - the attention-case sum and the row colours.

Server responses are inputs to the model: a list the server failed to deliver
is `None`, and a request outcome is `Ok` or `Failed(serverError)`. The
logged-in user read from browser storage is a `Usuario` value. An absent id is
`None` and an absent role is `""`. JavaScript truthiness of an id
(`IdSet`) and strict equality between a record's id and the session id
(`SameId`) are written out in `Common`.

Behaviour of the code worth knowing:

- An "ocasional" cough adds 1 point but writes no detail line, so an
  empty detail list does not mean a zero score
  (`Triagem.EmptyDetailsIffOnlyOccasionalCough`).
- Answers are free strings. The explicit negative option is "nao" and the
  untouched form holds "". Any value outside the table scores nothing.
- The stored triage result is the bare tier label, not the text shown on
  the page (`Triagem.StoredLabelPrefixesDisplay`).
- Page guards send users to `/login`, which is not a route
  (`App.DanglingPaths`).
- The professional dashboard shows its triage list as soon as the triages
  arrive, but sets its counters only after the readings load; a failed
  readings load leaves the counters at 0 beside a non-empty list
  (`DashboardProfissional.CountersLagWhenReadingsFail`). A readings body that
  is neither a list nor falsy is such a failure, since `|| []` keeps it and it
  has no `filter` (`DashboardProfissional.FalsyReadingsComplete`).
- The physician's dashboard asks for the critical triages only after its
  appointments step completes; when that step throws, the critical list
  stays empty whatever the triage answer
  (`DashboardMedico.CriticasWaitForAppointments`).

Every list filter is stated by membership in both directions, by
multiplicity (each record occurs as often as in the server's list when it
passes, otherwise not at all), and by an `InOrder` lemma: the empty list
gives the empty list, and a record appended to the input is appended to the
output exactly when it passes, which fixes the order.

## Model

| member | source | states |
|---|---|---|
| Triagem.Contribute | src/pages/Triagem/index.jsx:55-91 | one symptom's branch of the scorer; its points and line are pinned to the point table by Triagem.ContributeAgreesWithTable |
| Triagem.Pass | src/pages/Triagem/index.jsx:53-91 | the six blocks run in order from an empty tally; Triagem.PassSumsTable and Triagem.PassListsLines state its total and its lines |
| Triagem.ContributeAgreesWithTable | src/pages/Triagem/index.jsx:55-91 | each symptom's branch adds exactly the table's points, and writes a detail line exactly when it scores, except an occasional cough |
| Triagem.UnrecognisedAnswerScoresNothing | src/pages/Triagem/index.jsx:55-91 | an answer outside the table, whatever it is, adds no points and no line |
| Triagem.NaoScoresNothing | src/pages/Triagem/index.jsx:55-91 | the explicit "nao" option adds nothing for every symptom |
| Triagem.StepAdds | src/pages/Triagem/index.jsx:55-91 | one symptom's block adds its table points and at most one line |
| Triagem.StepKeepsListed | src/pages/Triagem/index.jsx:53-91 | after each block, every line belongs to a symptom already examined, is the line that symptom's block writes, appears in symptom order, and no symptom that writes a line is missing |
| Triagem.PassListsLines | src/pages/Triagem/index.jsx:53-91 | after all six blocks the detail lines are exactly those of the symptoms that write one, one each, in the fixed order febre, tosse, dorGarganta, faltaAr, fadiga, dorCorpo |
| Triagem.PassSumsTable | src/pages/Triagem/index.jsx:52-91 | the running total after the six blocks is the table's sum over the six answers, with at most six lines |
| Triagem.ReferenceScoreBound | src/pages/Triagem/index.jsx:52-91 | no answer set scores more than 11 |
| Triagem.Calcular | src/pages/Triagem/index.jsx:50-113 | the scorer's total is the table's sum and lies in 0..11, its tier is the threshold classification of that total, and it lists at most six lines |
| Triagem.DetailLines | src/pages/Triagem/index.jsx:53-91 | the scorer's detail list is the one the six blocks build, with every line accounted for |
| Triagem.Classify | src/pages/Triagem/index.jsx:96-108 | first-match classification; Triagem.ClassifyThresholds states each tier's range in both directions |
| Triagem.ClassifyThresholds | src/pages/Triagem/index.jsx:96-108 | the tier is Grave iff the total is at least 6, Moderado iff 3..5, Leve iff 1..2, Sem sintomas iff 0 |
| Triagem.TierOutputs | src/pages/Triagem/index.jsx:96-108 | each score range yields its fixed label and recommendation, and the label is one of the four tier labels |
| Triagem.TierMonotone | src/pages/Triagem/index.jsx:96-108 | a higher total never gives a milder tier |
| Triagem.EmptyDetailsIffOnlyOccasionalCough | src/pages/Triagem/index.jsx:66-71 | the detail list is empty iff the only points come from the cough and the cough is not "frequente", so an empty list does not imply a zero score |
| Triagem.Display | src/pages/Triagem/index.jsx:110 | the text shown; Triagem.StoredLabelPrefixesDisplay states how it relates to the stored label and the total |
| Triagem.StoredLabelPrefixesDisplay | src/pages/Triagem/index.jsx:110-134 | the stored result (bare label) is a proper prefix of the text shown, which carries the total written in decimal |
| Triagem.ShortnessOfBreathAlone | src/pages/Triagem/index.jsx:78-101 | shortness of breath alone scores 3, Moderado, listing only "Falta de ar" |
| Triagem.AllAnswersAtMaximum | src/pages/Triagem/index.jsx:55-98 | every answer at its maximum scores 11, Grave, listing all six symptoms in order |
| Triagem.OccasionalCoughAlone | src/pages/Triagem/index.jsx:66-104 | an occasional cough alone scores 1, Leve, with an empty detail list |
| Triagem.LowFeverOccasionalCough | src/pages/Triagem/index.jsx:55-104 | low fever and occasional cough score 2, Leve, listing only "Febre baixa" |
| Triagem.JustBelowSevere | src/pages/Triagem/index.jsx:55-101 | moderate fever, frequent cough and sore throat score 5, Moderado, with three lines |
| Triagem.NothingRecognised | src/pages/Triagem/index.jsx:55-108 | when no answer is in the table the result is 0 points, Sem sintomas, no lines |
| Triagem.UntouchedFormScoresNothing | src/pages/Triagem/index.jsx:10-17 | the initial all-empty answers score 0, Sem sintomas, no lines |
| Triagem.Selecionar | src/pages/Triagem/index.jsx:44-47 | choosing a patient selects it and empties the search box |
| Triagem.Enviar | src/pages/Triagem/index.jsx:116-135 | without a patient nothing is sent and "Selecione um utente" is shown; otherwise the payload carries the patient's id, the answers, and the bare label and the recommendation of the classified table score |
| Triagem.Limpar | src/pages/Triagem/index.jsx:146-158 | clearing drops the selection, sets every answer to "" and empties result and recommendation |
| Triagem.AposEnviar | src/pages/Triagem/index.jsx:116-144 | after a save the form is cleared with the success message; after a failure the answers, selection and shown result stay and the server's message (or the fallback) is shown |
| Search.ByContacto | src/pages/Consultas/index.jsx:68-70 | contact search keeps exactly the patients that have a contact containing the query, each as often as in the input; one without a contact is dropped |
| Search.ByContactoInOrder | src/pages/Consultas/index.jsx:68-70 | the contact search keeps the input's order: a patient appended to the input is appended to the result exactly when it matches |
| Search.ByContactoEmptyQuery | src/pages/Triagem/index.jsx:39-41 | the empty query keeps exactly the patients that have a contact |
| Search.ByNomeOuContacto | src/pages/Utentes/index.jsx:125-129 | name-or-contact search keeps exactly the patients whose lower-cased name contains the lower-cased query or whose contact contains the query, each as often as in the input |
| Search.ByNomeOuContactoInOrder | src/pages/Utentes/index.jsx:125-129 | the name-or-contact search keeps the input's order: a patient appended to the input is appended to the result exactly when it matches |
| Search.ByNomeOuContactoEmptyQuery | src/pages/Utentes/index.jsx:125-129 | the empty query keeps every patient, whatever their contacts |
| Strings.Contains | src/pages/Utentes/index.jsx:127-128 | substring test: true iff the query occurs at some position |
| Strings.ToLower | src/pages/Utentes/index.jsx:127 | lower-casing keeps the length, turns each ASCII upper-case letter into its lower-case letter and changes nothing else |
| Strings.NatToStringRoundTrip | src/pages/Triagem/index.jsx:110 | the decimal text of the total reads back as the total |
| Roles.Parse | src/pages/Usuarios/index.jsx:104-107 | a string is recognised as a role exactly when it is one of the four tags |
| Roles.ParseTag | src/pages/Usuarios/index.jsx:104-107 | parsing a role's tag gives back that role |
| Routes.Find | src/routes/routes.jsx:18-33 | lookup by path returns an entry with that path, and returns nothing iff no entry carries it |
| Routes.FindUnique | src/routes/routes.jsx:18-33 | with distinct paths, looking up an entry's path returns that entry |
| Routes.AdmittedPathsSpec | src/routes/routes.jsx:18-33 | the paths admitting a role are exactly the protected entries listing it |
| Routes.AdmitsEntry | src/routes/routes.jsx:18-33 | a path is admitted for a role iff its table entry is protected and lists the role |
| Routes.TableWellFormed | src/routes/routes.jsx:18-33 | the table has distinct paths, the root is its only public route, and every protected route lists one or more recognised role tags |
| Routes.TablePathsDistinct | src/routes/routes.jsx:18-33 | no two routes share a path |
| Routes.TableRootOnlyPublic | src/routes/routes.jsx:19-31 | a route is public iff its path is "/", and the first entry is "/" |
| Routes.TableRolesRecognised | src/routes/routes.jsx:20-31 | every protected route lists one or more roles, each one of the four tags |
| Routes.OneDashboardPerRole | src/routes/routes.jsx:20-22 | each role is admitted to exactly one dashboard route, its own |
| Routes.GestorOnlyPaths | src/routes/routes.jsx:20-31 | the manager dashboard, users, reports and zones admit exactly "gestor" |
| Routes.MedicoOnlyPaths | src/routes/routes.jsx:21-28 | the physician dashboard and prescriptions admit exactly "medico" |
| Routes.ProfissionalPaths | src/routes/routes.jsx:22 | the professional dashboard admits exactly "agente" and "enfermeiro" |
| Routes.SharedPaths | src/routes/routes.jsx:24-29 | patients, triages, appointments and readings admit exactly the four role tags |
| App.Resolve | src/App.jsx:12-31 | the login page is chosen exactly for "/"; a guarded element wraps a registered protected route carrying the requested path, inside an authentication-only guard and a guard holding that route's roles |
| App.ProtectedRoutes | src/App.jsx:16-17 | the routes registered inside the guards are exactly the table's non-public entries |
| App.ProtectedRegisteredOnce | src/App.jsx:12-28 | the guarded list never holds the root and has distinct paths, so no path is registered twice |
| App.RootIsPublic | src/App.jsx:12 | "/" renders the login page for every session |
| App.ProtectedWrapping | src/App.jsx:15-28 | every protected route renders inside an authentication-only guard and a guard holding exactly its roles |
| App.GuardsAroundRoute | src/App.jsx:15-23 | the two guards around a route let a role through iff the route lists it |
| App.ReachableAt | src/App.jsx:15-28 | a protected route renders for a role iff the route lists the role |
| App.ReachableIffAdmits | src/App.jsx:12-31 | for every path but the root, rendering for a role is exactly the table admitting it there |
| App.UnknownIsNotFound | src/App.jsx:31 | a path no entry carries falls to the not-found element and renders no page for anyone |
| App.DanglingPaths | src/App.jsx:31 | "/login" and "/utentes/criar" both resolve to the not-found element |
| App.LoggedOutReachesOnlyRoot | src/App.jsx:12-31 | without a session only the root renders a page |
| SideBar.MenuItems | src/components/SideBar/SideBar.jsx:12-47 | the per-role menu table; SideBar.MenuMatchesTable and SideBar.UnknownRoleEmptyMenu state what each role gets |
| SideBar.UnknownRoleEmptyMenu | src/components/SideBar/SideBar.jsx:47 | an absent or unrecognised role gets an empty menu |
| SideBar.MenuMatchesTable | src/components/SideBar/SideBar.jsx:12-45 | for each role the menu's paths are, as a set, exactly the protected routes admitting that role |
| SideBar.AdmittedInMenu | src/components/SideBar/SideBar.jsx:13-44 | every route admitting a role appears in that role's menu |
| SideBar.MenuEntryAdmitted | src/components/SideBar/SideBar.jsx:13-44 | every menu path is a route admitting that role |
| SideBar.ListedInMenu | src/components/SideBar/SideBar.jsx:13-44 | a table entry listing a role shows up in that role's menu |
| SideBar.MenuWithinAuthorization | src/components/SideBar/SideBar.jsx:13-44 | every menu entry leads to a page the router renders for that role |
| SideBar.GestorOrderDiffers | src/components/SideBar/SideBar.jsx:20-21 | the manager menu lists zones before reports, the reverse of the route table |
| SideBar.FirstEntryIsDashboard | src/components/SideBar/SideBar.jsx:14-39 | each role's first menu entry is its own dashboard |
| SideBar.NurseAndAgentMenusAgree | src/components/SideBar/SideBar.jsx:31-44 | nurse and agent menus are identical |
| SideBar.MenuPathsDistinct | src/components/SideBar/SideBar.jsx:12-45 | no path repeats within a menu |
| SideBar.AtMostOneActive | src/components/SideBar/SideBar.jsx:60-64 | at most one entry is highlighted for any location |
| Login.LandingPath | src/pages/Login/index.jsx:26-30 | the landing page is other than "/" exactly for the four role tags |
| Login.OnLoginResponse | src/pages/Login/index.jsx:21-32 | on success the session is stored first, then a single navigation goes to the landing page of the stored role (`LandingPath`), which that role can reach; on failure nothing is stored and the server's message or "Erro ao fazer login" is shown |
| Login.LandingIsDashboard | src/pages/Login/index.jsx:26-30 | each role tag lands on its own dashboard and any other value lands on "/" |
| Login.LandingReachable | src/pages/Login/index.jsx:26-30 | the landing page always renders for the role just stored |
| Login.LandingIsFirstMenuEntry | src/pages/Login/index.jsx:27-29 | for each role the landing page is the first entry of its menu |
| DashboardMedico.Guard | src/pages/DashboardMedico/index.jsx:22-25 | the page proceeds exactly for a user with a truthy id and role "medico"; otherwise it redirects to "/login" |
| DashboardMedico.GuardAgreesWithTable | src/pages/DashboardMedico/index.jsx:22-25 | for a user with an id the guard admits exactly the roles the route table admits to the page, and its redirect target is not a route |
| DashboardMedico.MinhasConsultas | src/pages/DashboardMedico/index.jsx:33-37 | the list keeps exactly the day's appointments whose physician id equals the user's, each as often as the server sent it; a missing response gives none |
| DashboardMedico.MinhasConsultasInOrder | src/pages/DashboardMedico/index.jsx:35-37 | the physician's list keeps the server's order: an appointment appended to the day's list is appended to it exactly when it is the physician's |
| DashboardMedico.Contar | src/pages/DashboardMedico/index.jsx:40-45 | the day count is the list's length, pending is the number of positions not attended, attended the number of positions attended, and the two add up to the day count |
| DashboardMedico.Criticas | src/pages/DashboardMedico/index.jsx:49-52 | the critical list is the first five triages labelled "ATENÇÃO" or "URGÊNCIA", in order |
| DashboardMedico.Carregar | src/pages/DashboardMedico/index.jsx:29-58 | the load runs in order: if the appointments answer fails, has a null body or a non-list `consultas` field, nothing is set; otherwise the physician's appointments and their recount are set, and the critical list is set only when the triage answer is a list or falsy, staying empty otherwise |
| DashboardMedico.CriticasWaitForAppointments | src/pages/DashboardMedico/index.jsx:29-58 | when the appointments step throws, no critical triage is shown however many the triage answer holds, while a falsy appointments field lets the same answer through |
| DashboardMedico.LoadedCountersMatchList | src/pages/DashboardMedico/index.jsx:36-45 | once the appointments step completes, the day count is the number of appointments shown and pending plus attended add up to it |
| DashboardMedico.ScorerLabelsNeverCritical | src/pages/DashboardMedico/index.jsx:51 | no label the triage scorer stores is a critical label |
| DashboardMedico.Marcar | src/pages/DashboardMedico/index.jsx:68-70 | marking sets "realizada" on the matching appointments only and leaves every other one unchanged |
| DashboardMedico.Ajustar | src/pages/DashboardMedico/index.jsx:71-75 | the counter update keeps the day count and moves one appointment from pending to attended |
| DashboardMedico.AjustarMatchesRecount | src/pages/DashboardMedico/index.jsx:68-75 | when the marked appointment is unique and still pending, the adjusted counters equal a recount of the updated list |
| DashboardMedico.MarcarComoRealizada | src/pages/DashboardMedico/index.jsx:65-79 | once the server accepts the mark the list is marked and the counters adjusted; a failed request alerts "Erro ao marcar consulta" and changes neither |
| DashboardMedico.MarcarComoRealizadaKeepsRecount | src/pages/DashboardMedico/index.jsx:65-79 | whatever the server answers, counters that agreed with the list before marking a unique pending appointment agree with it afterwards |
| DashboardMedico.AjustarOnAttendedDrifts | src/pages/DashboardMedico/index.jsx:71-75 | on an appointment already attended the list does not change but the counters still move, so they disagree with a recount |
| DashboardProfissional.Guard | src/pages/DashboardProfissional/index.jsx:22-27 | the page proceeds exactly for a user with a truthy id and role "agente" or "enfermeiro"; otherwise it redirects to "/login" |
| DashboardProfissional.GuardAgreesWithTable | src/pages/DashboardProfissional/index.jsx:22-27 | for a user with an id the guard admits exactly the roles the route table admits to the page |
| DashboardProfissional.MinhasTriagens | src/pages/DashboardProfissional/index.jsx:35-39 | the visible triages are exactly those the user entered, or all of them for a nurse, each as often as the server sent it; a non-list response gives none |
| DashboardProfissional.MinhasTriagensInOrder | src/pages/DashboardProfissional/index.jsx:37-39 | the visible list keeps the server's order: a triage appended to the day's list is appended to it exactly when it is visible |
| DashboardProfissional.NurseSeesAll | src/pages/DashboardProfissional/index.jsx:37-39 | a nurse sees every triage of the day |
| DashboardProfissional.Contar | src/pages/DashboardProfissional/index.jsx:42-59 | the triage count is the list's length, the patient count is the number of distinct patient ids in it, and urgencies are the number of positions labelled "URGÊNCIA"; neither exceeds the triage count, and a triage means at least one patient |
| DashboardProfissional.MinhasLeituras | src/pages/DashboardProfissional/index.jsx:47-53 | the readings shown are the first five (or all, when fewer) of the readings dated today and visible to the user, in the server's order |
| DashboardProfissional.TriagensMostradas | src/pages/DashboardProfissional/index.jsx:105 | the triage list shows the first five visible triages, or all of them when fewer |
| DashboardProfissional.Carregar | src/pages/DashboardProfissional/index.jsx:30-63 | a failed triage request leaves the page in its initial state; arrived triages are always listed; readings and counters are set only when the readings request answers with a list or a falsy body and every reading's date converts; a body that is some other value throws, and then they stay empty and 0 |
| DashboardProfissional.FalsyReadingsComplete | src/pages/DashboardProfissional/index.jsx:47-48 | a falsy readings body reads as no readings and the counters are set; any other non-list body throws and the counters stay 0 |
| DashboardProfissional.CountersLagWhenReadingsFail | src/pages/DashboardProfissional/index.jsx:41-61 | when the readings step throws, visible triages are listed while the triage counter reads 0 |
| DashboardProfissional.CountersMatchListWhenLoaded | src/pages/DashboardProfissional/index.jsx:41-59 | when both steps complete, the triage counter equals the listed count and urgencies do not exceed it |
| DashboardProfissional.NewPatientLinkDangles | src/pages/DashboardProfissional/index.jsx:152 | the "new patient" quick link resolves to the not-found element |
| DashboardProfissional.QuickLinkReachable | src/pages/DashboardProfissional/index.jsx:153-155 | the other quick links lead to pages that nurse and agent can both reach |
| CriarPrescricao.Guard | src/pages/CriarPrescricao/index.jsx:28-32 | the page proceeds exactly for role "medico", whatever the id; otherwise it redirects to "/login" |
| CriarPrescricao.GuardAgreesWithTable | src/pages/CriarPrescricao/index.jsx:28-32 | the role-only guard admits exactly the roles the route table admits to the page, and its redirect target is not a route |
| CriarPrescricao.Carregadas | src/pages/CriarPrescricao/index.jsx:36-39 | the loaded appointments are exactly the user's own attended ones, each as often as the server sent it; a user with no id gets none when every record carries the field (a record without it is admitted under Left out) |
| CriarPrescricao.CarregadasInOrder | src/pages/CriarPrescricao/index.jsx:38 | the loaded list keeps the server's order: an appointment appended to the day's list is appended to it exactly when it is the user's own and attended |
| CriarPrescricao.Filtradas | src/pages/CriarPrescricao/index.jsx:48-51 | the search keeps exactly the appointments whose patient's lower-cased name contains the lower-cased query or whose contact contains the query, each as often as in the list |
| CriarPrescricao.FiltradasInOrder | src/pages/CriarPrescricao/index.jsx:48-51 | the search keeps the list's order: an appointment appended to the list is appended to the result exactly when it matches |
| CriarPrescricao.EmptyQueryKeepsAll | src/pages/CriarPrescricao/index.jsx:48-51 | the empty query keeps every appointment |
| CriarPrescricao.Selecionar | src/pages/CriarPrescricao/index.jsx:53-56 | choosing an appointment selects it and empties the search box |
| CriarPrescricao.Enviar | src/pages/CriarPrescricao/index.jsx:58-76 | without a selection nothing is sent and "Selecione uma consulta primeiro" is shown; otherwise the payload is the appointment's id and the four fields |
| CriarPrescricao.BotaoAtivo | src/pages/CriarPrescricao/index.jsx:197 | the submit button is enabled only when nothing is in flight and an appointment is selected, so an enabled button never hits the error path |
| CriarPrescricao.AposEnviar | src/pages/CriarPrescricao/index.jsx:58-88 | after a save the four fields are empty and the selection is cleared; after a failure the form and selection stay and the server's message or the fallback is shown |
| CriarPrescricao.SelectThenSubmit | src/pages/CriarPrescricao/index.jsx:53-76 | choosing an appointment and submitting sends that appointment's id with the form as typed |
| CriarPrescricao.NoResubmitAfterSuccess | src/pages/CriarPrescricao/index.jsx:78-88 | after a save the page cannot submit again until an appointment is chosen; after a failure it resubmits the same payload |
| Consultas.PrimeiroMedico | src/pages/Consultas/index.jsx:128 | finds the first physician with the id, or reports that none has it |
| Consultas.NomeMedico | src/pages/Consultas/index.jsx:126-130 | no id gives "Automático", a listed id gives "Dr(a). " and the first match's name, an unlisted id gives "Médico alocado" |
| Consultas.NomeMedicoDistinguishes | src/pages/Consultas/index.jsx:126-130 | "Automático" appears iff no physician was chosen, and a listed physician always shows with the title |
| Consultas.DataHora | src/pages/Consultas/index.jsx:90 | the timestamp starts with the date, then "T", and has the length of date, "T", time and the seconds suffix |
| Consultas.SepararDataHora | src/pages/Consultas/index.jsx:90 | reading a timestamp back into date and time rebuilds the same timestamp |
| Consultas.DataHoraRoundTrip | src/pages/Consultas/index.jsx:90 | a date without "T" and any time are recovered from the timestamp built from them |
| Consultas.Selecionar | src/pages/Consultas/index.jsx:56-76 | choosing a patient selects it, empties the search box and shows the triages the server returned for it, or none when their request failed |
| Consultas.Agendar | src/pages/Consultas/index.jsx:78-97 | without a patient nothing is sent and "Selecione um utente" is shown; otherwise the payload carries the patient's id, the physician or null when none was chosen, the type and the timestamp |
| Consultas.Limpar | src/pages/Consultas/index.jsx:109-113 | clearing restores type "teleconsulta" with empty fields, no patient and no triages |
| Consultas.AposAgendar | src/pages/Consultas/index.jsx:78-106 | after a booking the form is cleared with the success message; after a failure the form and patient stay and the server's message or "Erro ao agendar" is shown |
| Consultas.ScheduledTimestampRoundTrip | src/pages/Consultas/index.jsx:78-97 | the timestamp sent for a chosen patient reads back as the date and time typed |
| Consultas.NoRebookAfterSuccess | src/pages/Consultas/index.jsx:99-113 | after a successful booking a new one needs a new patient |
| Utentes.DadosParaEnviar | src/pages/Utentes/index.jsx:61-66 | the birth date is sent with ":00.000Z" appended when filled in and as null otherwise; every other field is copied |
| Utentes.PayloadRoundTrip | src/pages/Utentes/index.jsx:61-66 | the form is recovered from the payload, so nothing typed is lost |
| Utentes.PedidoDe | src/pages/Utentes/index.jsx:68-74 | a truthy edited id updates that patient, otherwise a patient is created, with the same payload either way |
| Utentes.Limpar | src/pages/Utentes/index.jsx:84-95 | clearing restores sexo "M" with every other field empty and nothing being edited |
| Utentes.Editar | src/pages/Utentes/index.jsx:97-113 | editing copies the patient's fields into the form, with an empty password, a missing local id as "", and the patient's id as the edited id |
| Utentes.EditThenSubmit | src/pages/Utentes/index.jsx:68-113 | saving right after starting to edit updates that patient (unless its id is 0) and resends its own fields |
| Utentes.SubmitAfterClearCreates | src/pages/Utentes/index.jsx:68-95 | after clearing, saving creates a new patient |
| Utentes.UtentesFiltrados | src/pages/Utentes/index.jsx:125-129 | the list keeps exactly the patients matching by name or contact, each as often as in the input |
| Utentes.UtentesFiltradosInOrder | src/pages/Utentes/index.jsx:125-129 | the list keeps the input's order: a patient appended to the input is appended to the result exactly when it matches |
| Utentes.AposSalvar | src/pages/Utentes/index.jsx:53-82 | after a save the form is cleared and the message tells update from creation; after a failure the form and edited id stay and the server's message or "Erro na operação" is shown |
| Relatorio.Soma | src/pages/Relatorio/index.jsx:244 | the sum of the totals accumulated from the left starting at 0: the empty list sums to 0, and the sum of a list is the sum of all but its last row plus the last row's total |
| Relatorio.CasosAtencao | src/pages/Relatorio/index.jsx:242-244 | the attention figure is the grand total minus the NORMAL rows' totals |
| Relatorio.AtencaoMaisNormal | src/pages/Relatorio/index.jsx:242-244 | the attention total plus the NORMAL rows' totals is the grand total |
| Relatorio.SomaNaoNegativa | src/pages/Relatorio/index.jsx:244 | with non-negative totals the sum is non-negative |
| Relatorio.AtencaoLimitada | src/pages/Relatorio/index.jsx:242-244 | with non-negative totals the attention figure lies between 0 and the grand total |
| Relatorio.TodosNormais | src/pages/Relatorio/index.jsx:242-244 | when every row is NORMAL there are no attention cases |
| Relatorio.Cor | src/pages/Relatorio/index.jsx:197-203 | green iff "NORMAL", yellow iff "ATENÇÃO", red iff anything else |
| Relatorio.ColouredIffCounted | src/pages/Relatorio/index.jsx:197-203 | a row counts as an attention case iff it is not green |
| Relatorio.ScorerLabelsAreRed | src/pages/Relatorio/index.jsx:197-203 | every label the triage scorer stores is coloured red and counted as an attention case |
| Relatorio.PedidoDe | src/pages/Relatorio/index.jsx:51-55 | an empty zone is sent as null (every zone) and the period is copied |
| Relatorio.AposGerar | src/pages/Relatorio/index.jsx:44-61 | a report shows its data with no error; a failure shows no data and the server's message or "Erro ao gerar relatório" |
| Common.ErrorText | src/pages/Login/index.jsx:32 | the server's error message unless it is missing or empty, then the fallback |
| Common.OrEmpty | src/pages/DashboardMedico/index.jsx:33 | a missing list response reads as the empty list |
| Common.EmptyToNull | src/pages/Consultas/index.jsx:94 | an empty field is sent as null and any other as itself |

## Left out

- Network calls (`api.get/post/put/delete`, `async`/`await`): responses are inputs and requests are returned values. Reloading lists after a save is not modelled.
- Browser storage, `login`/`logout`/`getPapel` and the `ProtectedRoute` component: `routes/ProtectedRoute` and `utils/auth` are not part of this model. The guard is represented only as "the role is in the guard's list", with no claim about redirecting versus denying.
- JSX rendering, CSS classes, icons, charts and PDF generation (`gerarPDF`, `exportarPDF`).
- Date parsing and formatting. `Utentes.Editar` takes the minute-precision formatting as a parameter. `DashboardProfissional.MinhasLeituras` takes the "same day" test as a parameter, and `DashboardProfissional.Carregar` takes the test of whether a reading's date converts.
- Strings.ToLower: lower-cases ASCII letters only, because JavaScript's Unicode case mapping is not modelled.
- `JSON.stringify` of the triage answers: the payload carries the answers record itself.
- `window.confirm`, `setTimeout` clearing of success messages, and the order in which React applies state updates. The transient `loading` flag is kept only where a contract uses it.
- SideBar.UnknownRoleEmptyMenu: holds for every string that is not a role tag, including names of properties every JavaScript object inherits ("constructor", "toString", ...). For those the source's `menuItems[papel]` reads an inherited function instead of `undefined`, and the menu's `map` then throws; the model does not carry JavaScript's prototype chain.
- SideBar.MenuItems: likewise gives the empty menu for inherited property names, where the source throws.
- Utentes.Editar: requires the patient to have a contact, because the form would otherwise hold `undefined`. Likewise a patient record always carries `localizacao` in the model, although the patient list shows a missing one as "Não informado" (src/pages/Utentes/index.jsx:235) and editing copies it into the form with no default (line 108), so the form would hold `undefined` and the update would resend it; a patient without a location is outside the model.
- Search.ByNomeOuContacto: requires a contact for every patient whose name does not match, because the source then reads `contacto.includes` without a null check and throws.
- Utentes.UtentesFiltrados: requires a contact for every patient whose name does not match, for the same reason (it is the same search).
- CriarPrescricao.Filtradas: requires a contact for every appointment whose patient's name does not match, because the source reads `c.utente.contacto.includes` without a null check there.
- App.Resolve: matches a path against the table by exact string equality. The router also matches paths case-insensitively and with trailing slashes ("/Usuarios", "/usuarios/"); that normalisation is not modelled.
- App.UnknownIsNotFound: "a path no entry carries resolves to not-found" is stated under exact matching; a case or trailing-slash variant of a table path is routed to that path's page by the router.
- App.ReachableIffAdmits: stated under exact path matching, for the same reason.
- CriarPrescricao.Carregadas: a record with no `profissionalId` field at all, compared with a session without an id, is kept by the source (`undefined === undefined`) but not by the model. Ids are `Option<int>`, an absent record id stands for `null`, and `SameId` treats two absent ids as different, as `null === undefined` is false; so "a user with no id gets none" holds only for records that carry the field.
- The appointments list of the scheduling page, its reload after booking, and its `marcarComoRealizada` action: a network call followed by a reload, with no list logic of its own.
- `excluirUtente` and the loading of zones and physicians: network calls only.
- The error messages set when a page's initial list load fails ("Erro ao carregar ...").
- The dashboard of the manager, the users, zones and readings pages, and the layout: no logic beyond network plumbing.
