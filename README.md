# RockHub catalogue core in Dafny

RockHub is a music-catalogue backend. Clients manage artists, songs and genres through
HTTP endpoints, and signed-in people rate artists. This project models the endpoint
handlers of the API, the relationship rules of the database context, and the generic
store (`DAL<T>`) the handlers go through. It then proves what these promise.

- The store is one `class RockHubContext` (module `Banco`). It holds the artist, song, genre
  and person tables as sequences of rows in storage order, plus one id counter per table.
  - `Adicionar` appends a row with a fresh id.
  - `Atualizar` replaces the row with the same id.
  - `Deletar` removes the row with that id.
  - `RecuperarPor` returns the first row that passes a test (module `Store`).
- The class keeps the invariant `Consistente`:
  - primary keys are unique, start at 1 and stay below the counter;
  - each artist has at most one rating per person, and every rating carries the artist's id;
  - a song always has its artist (a required foreign key);
  - a song's genre links always name stored genres.
- The relationship rules are part of the store's deletes:
  - deleting an artist deletes its songs (the cascade);
  - deleting a genre removes only its links.
- When a song is saved with genres that were never saved, those genres are inserted too.
  They get consecutive fresh ids, in list order.
- The handlers live in modules `Generos`, `Musicas` and `Artistas`.
  - Reads (list, find by name, read one's rating) are functions over the tables.
  - Writes are methods on the context. Each one states its whole new state.
- A handler's answer is a `Reply`: `Ok`, `Created`, `NoContent`, `NotFound`, or `Fault(e)`
  when the handler ends in exception `e`.
- Name comparisons use an ASCII upper-case fold. `Trim` removes ASCII whitespace.

The properties proved:
- The rating upsert:
  - it overwrites or appends;
  - it keeps at most one rating per person;
  - it leaves every other pair's score alone;
  - rating twice equals rating once with the second score;
  - the round trip through the rating GET returns the score just given.
- The mean rating lies between the lowest and highest score, and is 0 when there are none.
- The error order of the rating handlers, and that the store is unchanged on every error.
- Genre resolution:
  - a stored match is reused with its own id and description;
  - otherwise a new genre is built from the request;
  - two new entries are never merged.
- Every create, update and delete changes exactly what it should and nothing else.
- The cascade removes exactly the deleted artist's songs.
- The song projections never hit their null dereference in a consistent store.
- `TransformarNomeArtista`:
  - its output is only `A`-`Z`/`0`-`9` and is never longer than its input;
  - it is idempotent;
  - its space replacement never fires;
  - its fixed points are exactly the strings made of those characters only.

Genre resolution does not merge new genres. In `GeneroRequestConverter`
(RockHub.API/Endpoints/MusicasExtensions.cs:115-127), each entry that matches no stored genre
becomes its own unsaved `Genero`. So two new entries with the same name give two genre rows
when the song is saved. `Musicas.SemDeduplicacao` proves that they get different ids.

Files: `store.dfy` (Store), `text.dfy` (Text), `results.dfy` (Results), `banco.dfy` (Banco),
`generos.dfy` (Generos), `musicas.dfy` (Musicas), `artistas.dfy` (Artistas).

## Model

| member | source | states |
|---|---|---|
| Store.RecuperarPor | RockHub.API/Endpoints/GeneroExtensions.cs:52 | The lookup yields the first row passing the test, and yields none exactly when no row passes it. |
| Store.Atualizar | RockHub.API/Endpoints/MusicasExtensions.cs:106 | `Atualizar` keeps the number of rows and every row's key. Rows with the new row's key become that row; every other row stays. |
| Store.AtualizarAt | RockHub.API/Endpoints/MusicasExtensions.cs:106 | With unique ids, `Atualizar` replaces exactly the stored row with that id; every other row stays in place. |
| Store.DeletarAt | RockHub.API/Endpoints/MusicasExtensions.cs:85 | `Deletar` (also modelled as `Store.Deletar`) removes every row with the given key. With unique ids it removes exactly the row with that id and keeps the others in order. |
| Banco.MusicasDoArtista | RockHub.Shared.Dados/Banco/RockHubContext.cs:38-41 | An artist's songs are exactly the stored songs carrying its id. |
| Banco.CascataArtista | RockHub.Shared.Dados/Banco/RockHubContext.cs:38-42 | The songs surviving an artist's deletion are stored songs of other artists, and every stored song of another artist survives. |
| Banco.DesvincularGenero | RockHub.Shared.Dados/Banco/RockHubContext.cs:34-36 | Deleting a genre keeps every song, with its id, name, year and artist. It drops only the link to that genre; every other link stays. |
| Banco.NovosGeneros | RockHub.Shared.Dados/Banco/RockHubContext.cs:34-36 | Saving a song inserts one genre row per unsaved genre of its list, numbered consecutively from the counter. |
| Banco.NovoGeneroSalvo | RockHub.API/Endpoints/MusicasExtensions.cs:67 | Each unsaved genre of the list becomes one of the inserted rows, with its own name and description and the id the song links to. |
| Banco.Vinculos | RockHub.API/Endpoints/MusicasExtensions.cs:67 | The links written for a saved song include the saved id of every entry of its genre list. |
| Banco.VinculoDeEntrada | RockHub.Shared.Dados/Banco/RockHubContext.cs:34-36 | Every link written for a saved song is the saved id of some entry of its genre list. |
| Banco.CascataRemoveSoOArtista | RockHub.Shared.Dados/Banco/RockHubContext.cs:38-42 | After the cascade the deleted artist has no songs, and every other artist has the same songs in the same order. |
| Banco.DonoUnico | RockHub.Shared.Dados/Banco/RockHubContext.cs:38-41 | In a consistent store every song belongs to exactly one stored artist. |
| Banco.AdicionarArtistaPreserva | RockHub.API/Endpoints/ArtistasExtensions.cs:82 | Adding an artist keeps the store consistent. |
| Banco.AtualizarArtistaPreserva | RockHub.API/Endpoints/ArtistasExtensions.cs:173 | Replacing an artist by one with the same id and valid ratings keeps the store consistent. |
| Banco.DeletarArtistaPreserva | RockHub.Shared.Dados/Banco/RockHubContext.cs:38-42 | Deleting an artist together with its songs leaves no song without its artist and keeps the store consistent. |
| Banco.NovaMusicaPreserva | RockHub.API/Endpoints/MusicasExtensions.cs:67 | Saving a song of a stored artist, with new genre rows numbered from the counter and links naming genre rows, keeps the store consistent. |
| Banco.VinculosSalvos | RockHub.Shared.Dados/Banco/RockHubContext.cs:34-36 | Every link of a saved song names a genre row: a reused stored genre or one inserted with the song. |
| Banco.AtualizarMusicaPreserva | RockHub.API/Endpoints/MusicasExtensions.cs:106 | Replacing a song by one with the same id, an existing artist and existing genres keeps the store consistent. |
| Banco.DeletarMusicaPreserva | RockHub.Shared.Dados/Banco/RockHubContext.cs:34-36 | Deleting a song keeps the store consistent; no genre depends on it. |
| Banco.AdicionarGeneroPreserva | RockHub.API/Endpoints/GeneroExtensions.cs:29 | Adding a genre keeps the store consistent. |
| Banco.DeletarGeneroPreserva | RockHub.Shared.Dados/Banco/RockHubContext.cs:34-36 | Deleting a genre together with its links keeps the store consistent. |
| Banco.RockHubContext.constructor | RockHub.Shared.Dados/Banco/RockHubContext.cs:7-18 | An empty catalogue over a list of registered people is consistent. |
| Banco.RockHubContext.AdicionarArtista | RockHub.API/Endpoints/ArtistasExtensions.cs:82 | Appends one artist with the next id and no ratings; nothing else changes. |
| Banco.RockHubContext.AtualizarArtista | RockHub.API/Endpoints/ArtistasExtensions.cs:121 | Replaces the artist with that id; nothing else changes. |
| Banco.RockHubContext.DeletarArtista | RockHub.Shared.Dados/Banco/RockHubContext.cs:38-42 | Removes the artist and, by the cascade, exactly its songs; genres stay. |
| Banco.RockHubContext.AdicionarMusica | RockHub.API/Endpoints/MusicasExtensions.cs:67 | With a stored artist: appends the song linked to its genres and inserts the unsaved ones. With an unknown artist: saves nothing. |
| Banco.RockHubContext.AtualizarMusica | RockHub.API/Endpoints/MusicasExtensions.cs:106 | Replaces the song with that id; nothing else changes. |
| Banco.RockHubContext.DeletarMusica | RockHub.API/Endpoints/MusicasExtensions.cs:85 | Removes the song; no genre is removed with it. |
| Banco.RockHubContext.AdicionarGenero | RockHub.API/Endpoints/GeneroExtensions.cs:29 | Appends one genre with the next id; nothing else changes. |
| Banco.RockHubContext.DeletarGenero | RockHub.API/Endpoints/GeneroExtensions.cs:75 | Removes the genre and its links; every song stays. |
| Generos.RequestToEntity | RockHub.API/Endpoints/GeneroExtensions.cs:81-84 | An unsaved genre carrying the request's name and description. |
| Generos.EntityToResponse | RockHub.API/Endpoints/GeneroExtensions.cs:91-94 | The response copies the genre's id, name and description. |
| Generos.ListarGeneros | RockHub.API/Endpoints/GeneroExtensions.cs:38-41 | One response per stored genre, in store order, copying id, name and description. |
| Generos.GetGeneroPorNome | RockHub.API/Endpoints/GeneroExtensions.cs:50-59 | The first genre whose upper-cased name equals the upper-cased input; NotFound exactly when there is none. |
| Generos.PostGenero | RockHub.API/Endpoints/GeneroExtensions.cs:27-30 | Exactly one genre is added with the request's name and description, even when that name is already stored. |
| Generos.DeleteGenero | RockHub.API/Endpoints/GeneroExtensions.cs:68-77 | An unknown id is NotFound and changes nothing. Otherwise exactly that genre row and its links are removed. |
| Musicas.Resolver | RockHub.API/Endpoints/MusicasExtensions.cs:117-126 | Each requested entry resolves to a genre named like it, ignoring case: either a stored genre or the unsaved genre built from the request. |
| Musicas.ResolverArmazenado | RockHub.API/Endpoints/MusicasExtensions.cs:118-121 | A requested name matching a stored genre ignoring case resolves to the first such stored genre, with its id and description. |
| Musicas.ResolverNovo | RockHub.API/Endpoints/MusicasExtensions.cs:117-126 | A requested name matching no stored genre resolves to an unsaved genre with the request's name and description. |
| Musicas.GeneroRequestConverter | RockHub.API/Endpoints/MusicasExtensions.cs:112-129 | Same length and order as the request. Each slot is its entry's resolution. A slot is unsaved exactly when it is not a stored genre. The genre table is only read. |
| Musicas.SemDeduplicacao | RockHub.API/Endpoints/MusicasExtensions.cs:123-126 | Two unmatched entries become two different genre rows with different ids, even with equal names. |
| Musicas.ReusoVincula | RockHub.API/Endpoints/MusicasExtensions.cs:119-121 | A reused stored genre is linked by its own id, and every inserted genre row has a fresh id. |
| Musicas.EntityToResponse | RockHub.API/Endpoints/MusicasExtensions.cs:141-144 | The song's fields plus its artist's id and name; a null dereference exactly when the artist is missing. |
| Musicas.EntityListToResponseList | RockHub.API/Endpoints/MusicasExtensions.cs:136-139 | Every song's response, in order; a null dereference exactly when some song has no artist. |
| Musicas.ListarMusicas | RockHub.API/Endpoints/MusicasExtensions.cs:21-30 | In store order, one response per song; never NotFound when every song has its artist. |
| Musicas.GetMusicaPorNome | RockHub.API/Endpoints/MusicasExtensions.cs:39-47 | The first song whose upper-cased name equals the upper-cased input, projected; NotFound exactly when there is none. |
| Musicas.ConsultasNaoFalham | RockHub.API/Endpoints/MusicasExtensions.cs:141-144 | In a consistent store the song list and the name lookup never end in the null dereference. |
| Musicas.PostMusica | RockHub.API/Endpoints/MusicasExtensions.cs:57-69 | Adds exactly one song with the request's name, artist and year. Its genres are the resolved list, empty without a list. An unknown artist faults and changes nothing. |
| Musicas.PutMusica | RockHub.API/Endpoints/MusicasExtensions.cs:96-108 | An unknown id is NotFound and changes nothing. Otherwise only that song's name and year change. |
| Musicas.DeleteMusica | RockHub.API/Endpoints/MusicasExtensions.cs:78-87 | An unknown id is NotFound and changes nothing. Otherwise exactly that song is removed and every genre stays. |
| Artistas.Notas | RockHub.API/Endpoints/ArtistasExtensions.cs:237-239 | The scores of the ratings, in order. |
| Artistas.Media | RockHub.API/Endpoints/ArtistasExtensions.cs:237-241 | The mean times the count is the sum of the scores; 0 when there are none. |
| Artistas.MediaEntre | RockHub.API/Endpoints/ArtistasExtensions.cs:237-241 | The mean of non-empty scores lies between any lower and upper bound of the scores. |
| Artistas.MediaExemplo | RockHub.API/Endpoints/ArtistasExtensions.cs:237-241 | Scores 3 and 5 have the mean 4. |
| Artistas.EntityToResponse | RockHub.API/Endpoints/ArtistasExtensions.cs:233-243 | Copies id, name, bio and photo, and computes `Classificacao` as the mean score, 0 without ratings. |
| Artistas.NotaDe | RockHub.API/Endpoints/ArtistasExtensions.cs:211-216 | The score of the pair's first rating, or 0 when the pair has no rating. |
| Artistas.AdicionarNota | RockHub.API/Endpoints/ArtistasExtensions.cs:166 | Appends one rating of this artist by the person after the others; nothing else changes. |
| Artistas.Avaliar | RockHub.API/Endpoints/ArtistasExtensions.cs:161-171 | The upsert changes only the artist's ratings. |
| Artistas.AvaliarSobrescreve | RockHub.API/Endpoints/ArtistasExtensions.cs:168-171 | When a rating of the pair exists, only its score is overwritten; the number of ratings and every other rating stay. |
| Artistas.AvaliarAcrescenta | RockHub.API/Endpoints/ArtistasExtensions.cs:164-167 | When there is no rating of the pair, exactly one rating is appended. |
| Artistas.AvaliarMantemValidas | RockHub.API/Endpoints/ArtistasExtensions.cs:161-167 | The upsert keeps at most one rating per person, all carrying the artist's id. |
| Artistas.NotaAposAvaliar | RockHub.API/Endpoints/ArtistasExtensions.cs:161-173 | Round trip: after rating with score s, the person's score read back is s. |
| Artistas.AvaliarPreservaOutros | RockHub.API/Endpoints/ArtistasExtensions.cs:161-171 | Rating leaves the score of every other (artist, person) pair unchanged. |
| Artistas.AvaliarDuasVezes | RockHub.API/Endpoints/ArtistasExtensions.cs:161-171 | Rating twice equals rating once with the second score. |
| Artistas.Identificar | RockHub.API/Endpoints/ArtistasExtensions.cs:153-159 | The first registered person with the claim's e-mail; none exactly when there is no claim or no such person. |
| Artistas.GetAvaliacao | RockHub.API/Endpoints/ArtistasExtensions.cs:195-217 | NotFound exactly for an unknown artist. Otherwise an `InvalidOperation` fault for an unidentified caller. Otherwise the caller's score, 0 without a rating. |
| Artistas.PostAvaliacao | RockHub.API/Endpoints/ArtistasExtensions.cs:143-176 | Same error order as the GET, with no change on any error. Created means only that artist's ratings changed, by the upsert, and the GET then returns the new score. |
| Artistas.ListarArtistas | RockHub.API/Endpoints/ArtistasExtensions.cs:28-37 | Always Ok: one projected response per stored artist, in order. |
| Artistas.GetArtistaPorNome | RockHub.API/Endpoints/ArtistasExtensions.cs:46-55 | The first artist whose trimmed name equals the input ignoring case; NotFound exactly when there is none. |
| Artistas.NomeComEspacoNaoEncontra | RockHub.API/Endpoints/ArtistasExtensions.cs:48 | Only the stored name is trimmed, so an input with leading whitespace never finds an artist. |
| Artistas.NomeArquivoFoto | RockHub.API/Endpoints/ArtistasExtensions.cs:67-68 | The photo file name is the time stamp, a `.`, the trimmed name with every `/` made `-` (character by character, same length), and `.jpeg`. It holds no `/` when the time stamp holds none. |
| Artistas.PostArtista | RockHub.API/Endpoints/ArtistasExtensions.cs:65-84 | Without a photo: an `ArgumentNull` fault and no change. Otherwise one artist with the untrimmed request name, bio, no ratings and the photo path. |
| Artistas.DeleteArtista | RockHub.API/Endpoints/ArtistasExtensions.cs:93-103 | An unknown id is NotFound and changes nothing. Otherwise exactly that artist is removed, along with exactly its songs. |
| Artistas.PutArtista | RockHub.API/Endpoints/ArtistasExtensions.cs:112-123 | An unknown id is NotFound and changes nothing. Otherwise only the artist's name and bio change. |
| Artistas.TransformarNomeArtista | RockHub.API/Endpoints/ArtistasExtensions.cs:221-226 | The output holds only `A`-`Z` and `0`-`9` and is never longer than the input. |
| Artistas.TicarNuncaOcorre | RockHub.API/Endpoints/ArtistasExtensions.cs:224 | The space-to-`TICAR` replacement never fires: the result is the filtered upper-case name. |
| Artistas.PontosFixos | RockHub.API/Endpoints/ArtistasExtensions.cs:221-226 | A name is left unchanged exactly when it consists of `A`-`Z` and `0`-`9` only. |
| Artistas.TransformarIdempotente | RockHub.API/Endpoints/ArtistasExtensions.cs:221-226 | Applying the normaliser twice equals applying it once. |

## Left out

- HTTP plumbing is not modelled: routing, authorization, Swagger and CORS, status codes on the wire, and the NotFound message texts. A handler answers a `Reply` value instead.
- The caller's identity is an optional e-mail parameter. Reading it from the `HttpContext` claims is not modelled.
- Profile-photo upload is not modelled: the base64 decoding and its `FormatException` on bad input, the file streams, and `Path.Combine`. Only a missing photo, which ends in `ArgumentNullException`, is modelled.
- `DateTime.Now` is a time-stamp parameter of `PostArtista`.
- `HttpUtility.UrlDecode` of the artist name is not modelled; the name arrives decoded.
- Culture-dependent `ToUpper` and `OrdinalIgnoreCase` become an ASCII fold, and `Trim` removes ASCII whitespace only.
- Artistas.Media: the mean is exact (a `real`); the double rounding of `.Average()` is not modelled.
- The store's internals (`DAL<T>`) are not part of this model. The model assumes:
  - `Listar` is never null;
  - `RecuperarPor` returns the first match in storage order;
  - ids come from per-table counters, and unsaved genres are numbered in list order;
  - a song of an unknown artist is refused with a `DbUpdateException`;
  - a song links each genre once (the join table has set semantics).
- EF change tracking, aliasing and lazy loading are not modelled. "Load, change fields, `Atualizar`" is modelled as replacing the row with the same id. The song's `Artista` navigation is a lookup by `ArtistaId`.
- Because of that assumption, the `is null` NotFound branches of the artist and song list handlers can never be taken. Their doc comments promise NotFound for an empty catalogue; the model answers Ok with an empty list.
- Null strings are not modelled: string fields are always present. The `NullReferenceException` on a genre, song or person with a null name or e-mail is therefore out of scope.
- Artistas.AdicionarNota: the body of `Artista.AdicionarNota` is not among the modelled source files. It is assumed to append `Avaliacao(artista.Id, pessoaId, nota)` unchanged. `Artistas.NotaAposAvaliar` depends on that assumption for a first rating.
- Concurrency, including two raters on the same artist at once: the model is sequential.
- The web client wrappers (RockHub.Web) and program start-up (both Program.cs files) are not modelled; the `*Request` records only give the shapes of the request datatypes.
