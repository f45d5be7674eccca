/** The song endpoints (`/Musicas`): list, find by name, add (resolving the
    requested genres against the genre store), update and delete. */
module Musicas {
  import opened Store
  import opened Text
  import opened Results
  import opened Banco
  import opened Generos

  /** The body of a song POST; `generos` is `None` when the client sent no genre list. */
  datatype MusicaRequest = MusicaRequest(nome: string, artistaId: int, anoLancamento: int,
                                         generos: Option<seq<GeneroRequest>>)

  /** The body of a song PUT. */
  datatype MusicaRequestEdit = MusicaRequestEdit(id: int, nome: string, anoLancamento: int)

  /** What a song looks like to a client: its own fields and its artist's id and name. */
  datatype MusicaResponse = MusicaResponse(id: int, nome: string, artistaId: int, artistaNome: string,
                                           anoLancamento: int)

  /** The genre one requested entry resolves to: the first stored genre with the
      same name ignoring case, or else an unsaved genre built from the request. */
  function Resolver(req: GeneroRequest, armazenados: seq<Genero>): (r: Genero)
    ensures EqualsIgnoreCase(r.nome, req.nome)
    ensures r in armazenados || r == RequestToEntity(req)
  {
    match RecuperarPor(armazenados, NomeIgual(req.nome))
    case Some(g) => g
    case None => RequestToEntity(req)
  }

  /** A requested name that matches a stored genre reuses that row, with its own id
      and description; the requested description is dropped. */
  lemma ResolverArmazenado(req: GeneroRequest, armazenados: seq<Genero>, k: nat)
    requires k < |armazenados| && EqualsIgnoreCase(armazenados[k].nome, req.nome)
    requires forall j :: 0 <= j < k ==> !EqualsIgnoreCase(armazenados[j].nome, req.nome)
    ensures Resolver(req, armazenados) == armazenados[k]
  {
    var r := RecuperarPor(armazenados, NomeIgual(req.nome));
    assert NomeIgual(req.nome)(armazenados[k]);
    var m :| 0 <= m < |armazenados| && armazenados[m] == r.value &&
             forall j :: 0 <= j < m ==> !NomeIgual(req.nome)(armazenados[j]);
    assert m == k;
  }

  /** A requested name that matches no stored genre gives a new genre carrying the
      request's name and description. */
  lemma ResolverNovo(req: GeneroRequest, armazenados: seq<Genero>)
    requires forall j :: 0 <= j < |armazenados| ==> !EqualsIgnoreCase(armazenados[j].nome, req.nome)
    ensures Resolver(req, armazenados) == Genero(NovoId, req.nome, req.descricao)
  {
    assert forall j :: 0 <= j < |armazenados| ==> !NomeIgual(req.nome)(armazenados[j]);
  }

  /** `GeneroRequestConverter`: walks the requested genres in order and collects, for
      each, the genre it resolves to. It only reads the genre table. */
  method GeneroRequestConverter(generos: seq<GeneroRequest>, armazenados: seq<Genero>)
    returns (lista: seq<Genero>)
    requires forall i :: 0 <= i < |armazenados| ==> armazenados[i].id != NovoId
    ensures |lista| == |generos|
    ensures forall i :: 0 <= i < |lista| ==> lista[i] == Resolver(generos[i], armazenados)
    ensures forall i :: 0 <= i < |lista| ==> (lista[i].id == NovoId <==> !(lista[i] in armazenados))
    ensures forall i :: 0 <= i < |lista| && lista[i].id == NovoId ==>
      lista[i].nome == generos[i].nome && lista[i].descricao == generos[i].descricao
  {
    lista := [];
    var n := 0;
    while n < |generos|
      invariant 0 <= n <= |generos| && |lista| == n
      invariant forall i :: 0 <= i < n ==> lista[i] == Resolver(generos[i], armazenados)
      invariant forall i :: 0 <= i < n ==> (lista[i].id == NovoId <==> !(lista[i] in armazenados))
      invariant forall i :: 0 <= i < n && lista[i].id == NovoId ==>
        lista[i].nome == generos[i].nome && lista[i].descricao == generos[i].descricao
    {
      var item := generos[n];
      var entity := RequestToEntity(item);
      var genero := RecuperarPor(armazenados, NomeIgual(item.nome));
      if genero.Some? {
        lista := lista + [genero.value];
      } else {
        assert !(entity in armazenados);
        lista := lista + [entity];
      }
      n := n + 1;
    }
  }

  /** Two requested genres that match no stored genre become two different genre rows
      when the song is saved, even when they carry the same name. */
  lemma SemDeduplicacao(lista: seq<Genero>, proximo: int, i: nat, j: nat)
    requires i < j < |lista| && lista[i].id == NovoId && lista[j].id == NovoId
    ensures IdSalvo(lista, proximo, i) != IdSalvo(lista, proximo, j)
    ensures ContarNovos(lista[..i]) < ContarNovos(lista[..j]) < |NovosGeneros(lista, proximo)|
  {
    ContarNovosPrefixo(lista, i, j);
    NovoGeneroSalvo(lista, proximo, i);
    NovoGeneroSalvo(lista, proximo, j);
  }

  /** A requested genre resolved to a stored row links the song to that row's id and
      adds no genre row for it. */
  lemma ReusoVincula(lista: seq<Genero>, proximo: int, i: nat)
    requires i < |lista| && lista[i].id != NovoId
    ensures lista[i].id in Vinculos(lista, proximo)
    ensures forall j :: 0 <= j < |NovosGeneros(lista, proximo)| ==> NovosGeneros(lista, proximo)[j].id >= proximo
  {
    assert IdSalvo(lista, proximo, i) == lista[i].id;
  }

  /** The song name test of the lookup: upper-cased names are equal. */
  function NomeMusicaIgual(nome: string): Musica -> bool
  {
    (m: Musica) => EqualsIgnoreCase(m.nome, nome)
  }

  /** `EntityToResponse`: the song with its artist's id and name. Reading the artist
      of a song without one ends in a null dereference. */
  function EntityToResponse(m: Musica, artistas: seq<Artista>): (r: Reply<MusicaResponse>)
    ensures r.Ok? || r == Fault(NullReference)
    ensures r.Ok? <==> TemArtista(artistas, m.artistaId)
    ensures r.Ok? ==> r.body.id == m.id && r.body.nome == m.nome && r.body.artistaId == m.artistaId
                      && r.body.anoLancamento == m.anoLancamento
    ensures r.Ok? ==> exists k :: 0 <= k < |artistas| && artistas[k].id == m.artistaId
                                  && r.body.artistaNome == artistas[k].nome
  {
    match RecuperarPor(artistas, ArtistaComId(m.artistaId))
    case Some(a) => Ok(MusicaResponse(m.id, m.nome, a.id, a.nome, m.anoLancamento))
    case None => Fault(NullReference)
  }

  /** A song whose artist is not stored. */
  function SemDono(artistas: seq<Artista>): Musica -> bool
  {
    (m: Musica) => RecuperarPor(artistas, ArtistaComId(m.artistaId)).None?
  }

  /** `EntityListToResponseList`: the responses of all songs, in order; a song without
      an artist ends it in the null dereference. */
  function EntityListToResponseList(ms: seq<Musica>, artistas: seq<Artista>): (r: Reply<seq<MusicaResponse>>)
    ensures r.Ok? || r == Fault(NullReference)
    ensures r.Ok? <==> DonosExistem(artistas, ms)
    ensures r.Ok? ==> |r.body| == |ms| && forall i :: 0 <= i < |ms| ==> Ok(r.body[i]) == EntityToResponse(ms[i], artistas)
  {
    match FirstIndex(ms, SemDono(artistas))
    case Some(k) =>
      assert !TemArtista(artistas, ms[k].artistaId);
      Fault(NullReference)
    case None =>
      assert forall i :: 0 <= i < |ms| ==> EntityToResponse(ms[i], artistas).Ok? by {
        assert forall i :: 0 <= i < |ms| ==> !SemDono(artistas)(ms[i]);
      }
      Ok(seq(|ms|, i requires 0 <= i < |ms| && EntityToResponse(ms[i], artistas).Ok? => EntityToResponse(ms[i], artistas).body))
  }

  /** `GET /Musicas`: every stored song, in store order. */
  function ListarMusicas(musicas: seq<Musica>, artistas: seq<Artista>): (r: Reply<seq<MusicaResponse>>)
    ensures DonosExistem(artistas, musicas) ==> r.Ok? && |r.body| == |musicas|
    ensures r.Ok? ==> |r.body| == |musicas| &&
                      forall i :: 0 <= i < |musicas| ==> Ok(r.body[i]) == EntityToResponse(musicas[i], artistas)
  {
    EntityListToResponseList(musicas, artistas)
  }

  /** `GET /Musicas/{nome}`: the first stored song whose name matches ignoring case. */
  function GetMusicaPorNome(musicas: seq<Musica>, artistas: seq<Artista>, nome: string): (r: Reply<MusicaResponse>)
    ensures r.NotFound? <==> forall j :: 0 <= j < |musicas| ==> !EqualsIgnoreCase(musicas[j].nome, nome)
    ensures !r.NotFound? ==> exists k :: (0 <= k < |musicas| && EqualsIgnoreCase(musicas[k].nome, nome) &&
                                          (forall j :: 0 <= j < k ==> !EqualsIgnoreCase(musicas[j].nome, nome)) &&
                                          r == EntityToResponse(musicas[k], artistas))
  {
    match RecuperarPor(musicas, NomeMusicaIgual(nome))
    case Some(m) => EntityToResponse(m, artistas)
    case None => NotFound
  }

  /** In a consistent store every song has its artist, so the song lookups never
      end in the null dereference. */
  lemma ConsultasNaoFalham(t: Tabelas, nome: string)
    requires Consistente(t)
    ensures ListarMusicas(t.musicas, t.artistas).Ok?
    ensures GetMusicaPorNome(t.musicas, t.artistas, nome).Ok? || GetMusicaPorNome(t.musicas, t.artistas, nome).NotFound?
  {
    var r := GetMusicaPorNome(t.musicas, t.artistas, nome);
    if !r.NotFound? {
      var k :| 0 <= k < |t.musicas| && r == EntityToResponse(t.musicas[k], t.artistas);
      assert TemArtista(t.artistas, t.musicas[k].artistaId);
    }
  }

  /** `POST /Musicas`: a song with the request's name, artist and year, linked to the
      resolved genres (none when no list was sent). Genres that matched no stored
      genre are inserted with it. A song of an unknown artist is refused by the
      store and nothing is saved. */
  method PostMusica(ctx: RockHubContext, req: MusicaRequest) returns (r: Reply<()>)
    requires ctx.Valid()
    modifies ctx
    ensures ctx.Valid()
    ensures r == Ok(()) || r == Fault(DbUpdate)
    ensures r.Ok? <==> TemArtista(old(ctx.artistas), req.artistaId)
    ensures r.Fault? ==> ctx.Conteudo() == old(ctx.Conteudo())
    ensures r.Ok? ==> exists lista: seq<Genero> :: (
      (req.generos.None? ==> lista == []) &&
      (req.generos.Some? ==> (|lista| == |req.generos.value| &&
                              forall i :: 0 <= i < |lista| ==> lista[i] == Resolver(req.generos.value[i], old(ctx.generos)))) &&
      ctx.Conteudo() == old(ctx.Conteudo()).(
        musicas := old(ctx.musicas) + [Musica(old(ctx.proximoMusicaId), req.nome, req.anoLancamento, req.artistaId,
                                              Vinculos(lista, old(ctx.proximoGeneroId)))],
        generos := old(ctx.generos) + NovosGeneros(lista, old(ctx.proximoGeneroId)),
        proximoMusicaId := old(ctx.proximoMusicaId) + 1,
        proximoGeneroId := old(ctx.proximoGeneroId) + ContarNovos(lista)))
  {
    var lista: seq<Genero> := [];
    if req.generos.Some? {
      lista := GeneroRequestConverter(req.generos.value, ctx.generos);
    }
    var ok := ctx.AdicionarMusica(req.nome, req.anoLancamento, req.artistaId, lista);
    r := if ok then Ok(()) else Fault(DbUpdate);
  }

  /** `PUT /Musicas`: an unknown id changes nothing; otherwise only the song's name
      and year change. */
  method PutMusica(ctx: RockHubContext, req: MusicaRequestEdit) returns (r: Reply<()>)
    requires ctx.Valid()
    modifies ctx
    ensures ctx.Valid()
    ensures r == Ok(()) || r == NotFound
    ensures r.NotFound? <==> forall j :: 0 <= j < |old(ctx.musicas)| ==> old(ctx.musicas)[j].id != req.id
    ensures r.NotFound? ==> ctx.Conteudo() == old(ctx.Conteudo())
    ensures r.Ok? ==> exists k :: (0 <= k < |old(ctx.musicas)| && old(ctx.musicas)[k].id == req.id &&
                                   ctx.Conteudo() == old(ctx.Conteudo()).(
                                     musicas := old(ctx.musicas)[k := old(ctx.musicas)[k].(nome := req.nome,
                                                                      anoLancamento := req.anoLancamento)]))
  {
    match FirstIndex(ctx.musicas, MusicaComId(req.id))
    case None =>
      r := NotFound;
    case Some(k) =>
      var m := ctx.musicas[k].(nome := req.nome, anoLancamento := req.anoLancamento);
      assert TemArtista(ctx.artistas, m.artistaId);
      assert forall g :: g in m.generoIds ==> TemGenero(ctx.generos, g) by {
        forall g | g in m.generoIds ensures TemGenero(ctx.generos, g) {
          assert g in ctx.musicas[k].generoIds;
        }
      }
      AtualizarAt(ctx.musicas, IdMusica, k, m);
      ctx.AtualizarMusica(m);
      r := Ok(());
  }

  /** `DELETE /Musicas/{id}`: an unknown id changes nothing; otherwise exactly that song
      is removed and every genre stays. */
  method DeleteMusica(ctx: RockHubContext, id: int) returns (r: Reply<()>)
    requires ctx.Valid()
    modifies ctx
    ensures ctx.Valid()
    ensures r == NoContent || r == NotFound
    ensures r.NotFound? <==> forall j :: 0 <= j < |old(ctx.musicas)| ==> old(ctx.musicas)[j].id != id
    ensures r.NotFound? ==> ctx.Conteudo() == old(ctx.Conteudo())
    ensures r.NoContent? ==> exists k :: (0 <= k < |old(ctx.musicas)| && old(ctx.musicas)[k].id == id &&
                                          ctx.Conteudo() == old(ctx.Conteudo()).(
                                            musicas := old(ctx.musicas)[..k] + old(ctx.musicas)[k + 1..]))
  {
    match FirstIndex(ctx.musicas, MusicaComId(id))
    case None =>
      r := NotFound;
    case Some(k) =>
      DeletarAt(ctx.musicas, IdMusica, k);
      ctx.DeletarMusica(id);
      r := NoContent;
  }
}
