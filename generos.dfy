/** The genre endpoints (`/generos`): add, list, find by name and delete, and the
    request/response mappings of a genre. */
module Generos {
  import opened Store
  import opened Text
  import opened Results
  import opened Banco

  /** The body of a genre request. */
  datatype GeneroRequest = GeneroRequest(nome: string, descricao: string)

  /** What a genre looks like to a client. */
  datatype GeneroResponse = GeneroResponse(id: int, nome: string, descricao: string)

  /** `RequestToEntity`: an unsaved genre carrying the request's name and description. */
  function RequestToEntity(req: GeneroRequest): (g: Genero)
    ensures g.id == NovoId
    ensures g.nome == req.nome && g.descricao == req.descricao
  {
    Genero(NovoId, req.nome, req.descricao)
  }

  /** `EntityToResponse`: the id, name and description of a stored genre. */
  function EntityToResponse(g: Genero): (r: GeneroResponse)
    ensures r.id == g.id && r.nome == g.nome && r.descricao == g.descricao
  {
    GeneroResponse(g.id, g.nome, g.descricao)
  }

  /** The name test of the genre lookups: upper-cased names are equal. */
  function NomeIgual(nome: string): Genero -> bool
  {
    (g: Genero) => EqualsIgnoreCase(g.nome, nome)
  }

  /** `GET /generos`: one response per stored genre, in store order. */
  function ListarGeneros(generos: seq<Genero>): (r: seq<GeneroResponse>)
    ensures |r| == |generos|
    ensures forall i :: 0 <= i < |r| ==>
      r[i].id == generos[i].id && r[i].nome == generos[i].nome && r[i].descricao == generos[i].descricao
  {
    seq(|generos|, i requires 0 <= i < |generos| => EntityToResponse(generos[i]))
  }

  /** `GET /generos/{nome}`: the first stored genre whose name matches ignoring case. */
  function GetGeneroPorNome(generos: seq<Genero>, nome: string): (r: Reply<GeneroResponse>)
    ensures r.Ok? || r.NotFound?
    ensures r.NotFound? <==> forall j :: 0 <= j < |generos| ==> !EqualsIgnoreCase(generos[j].nome, nome)
    ensures r.Ok? ==> exists k :: (0 <= k < |generos| && r.body == EntityToResponse(generos[k]) &&
                                   EqualsIgnoreCase(generos[k].nome, nome) &&
                                   forall j :: 0 <= j < k ==> !EqualsIgnoreCase(generos[j].nome, nome))
  {
    match RecuperarPor(generos, NomeIgual(nome))
    case Some(g) => Ok(EntityToResponse(g))
    case None => NotFound
  }

  /** `POST /generos`: one more genre with the request's name and description,
      whether or not a genre of that name is already stored. */
  method PostGenero(ctx: RockHubContext, req: GeneroRequest) returns (r: Reply<()>)
    requires ctx.Valid()
    modifies ctx
    ensures ctx.Valid()
    ensures r == Ok(())
    ensures ctx.Conteudo() == old(ctx.Conteudo()).(
      generos := old(ctx.generos) + [RequestToEntity(req).(id := old(ctx.proximoGeneroId))],
      proximoGeneroId := old(ctx.proximoGeneroId) + 1)
  {
    var g := RequestToEntity(req);
    var _ := ctx.AdicionarGenero(g.nome, g.descricao);
    r := Ok(());
  }

  /** `DELETE /generos/{id}`: an unknown id leaves the store as it is; otherwise
      exactly that genre row is removed, together with its links to songs. */
  method DeleteGenero(ctx: RockHubContext, id: int) returns (r: Reply<()>)
    requires ctx.Valid()
    modifies ctx
    ensures ctx.Valid()
    ensures r.NoContent? || r.NotFound?
    ensures r.NotFound? <==> !TemGenero(old(ctx.generos), id)
    ensures r.NotFound? ==> ctx.Conteudo() == old(ctx.Conteudo())
    ensures r.NoContent? ==> exists k :: (0 <= k < |old(ctx.generos)| && old(ctx.generos)[k].id == id &&
                                          ctx.Conteudo() == old(ctx.Conteudo()).(
                                            generos := old(ctx.generos)[..k] + old(ctx.generos)[k + 1..],
                                            musicas := DesvincularGenero(old(ctx.musicas), id)))
  {
    match FirstIndex(ctx.generos, GeneroComId(id))
    case None =>
      r := NotFound;
    case Some(k) =>
      DeletarAt(ctx.generos, IdGenero, k);
      ctx.DeletarGenero(id);
      r := NoContent;
  }
}
