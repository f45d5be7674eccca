/** The artist endpoints (`/artistas`): list, find by name, add, delete, update,
    rate and read one's own rating, together with the artist projection (which
    computes the mean rating) and the name normaliser `TransformarNomeArtista`. */
module Artistas {
  import opened Store
  import opened Text
  import opened Results
  import opened Banco

  /** The body of an artist POST; `fotoPerfil` is the base64 photo, `None` when absent. */
  datatype ArtistaRequest = ArtistaRequest(nome: string, bio: string, fotoPerfil: Option<string>)

  /** The body of an artist PUT. */
  datatype ArtistaRequestEdit = ArtistaRequestEdit(id: int, nome: string, bio: string)

  /** The body of a rating POST. */
  datatype AvaliacaoArtistaRequest = AvaliacaoArtistaRequest(artistaId: int, nota: int)

  /** What an artist looks like to a client; `classificacao` is its mean rating. */
  datatype ArtistaResponse = ArtistaResponse(id: int, nome: string, bio: string, fotoPerfil: string,
                                             classificacao: real)

  /** The caller's rating of an artist. */
  datatype AvaliacaoArtistaResponse = AvaliacaoArtistaResponse(artistaId: int, nota: int)

  // ---------------------------------------------------------------------------
  // The mean rating

  function Soma(notas: seq<int>): int
  {
    if notas == [] then 0 else notas[0] + Soma(notas[1..])
  }

  /** The scores of a list of ratings, in order (`Select(a => a.Nota)`). */
  function Notas(avs: seq<Avaliacao>): (r: seq<int>)
    ensures |r| == |avs| && forall i :: 0 <= i < |avs| ==> r[i] == avs[i].nota
  {
    seq(|avs|, i requires 0 <= i < |avs| => avs[i].nota)
  }

  /** `DefaultIfEmpty(0).Average()`: the arithmetic mean, and 0 when there is no score. */
  function Media(notas: seq<int>): (r: real)
    ensures notas == [] ==> r == 0.0
    ensures notas != [] ==> r * (|notas| as real) == Soma(notas) as real
  {
    if notas == [] then 0.0 else Soma(notas) as real / (|notas| as real)
  }

  /** Bounds on every score bound the sum. */
  lemma {:induction false} SomaEntre(notas: seq<int>, lo: int, hi: int)
    requires forall i :: 0 <= i < |notas| ==> lo <= notas[i] <= hi
    ensures |notas| * lo <= Soma(notas) <= |notas| * hi
  {
    if notas != [] {
      SomaEntre(notas[1..], lo, hi);
      assert |notas| * lo == lo + (|notas| - 1) * lo;
      assert |notas| * hi == hi + (|notas| - 1) * hi;
    }
  }

  lemma QuocienteEntre(s: real, n: real, lo: real, hi: real)
    requires n > 0.0 && n * lo <= s <= n * hi
    ensures lo <= s / n <= hi
  {
    assert s / n * n == s;
  }

  /** The mean of non-empty scores lies between the lowest and the highest score. */
  lemma MediaEntre(notas: seq<int>, lo: int, hi: int)
    requires notas != []
    requires forall i :: 0 <= i < |notas| ==> lo <= notas[i] <= hi
    ensures lo as real <= Media(notas) <= hi as real
  {
    SomaEntre(notas, lo, hi);
    var n := |notas| as real;
    var s := Soma(notas) as real;
    assert n * (lo as real) <= s <= n * (hi as real);
    QuocienteEntre(s, n, lo as real, hi as real);
  }

  /** Two scores 3 and 5 have the mean 4. */
  lemma MediaExemplo()
    ensures Media([3, 5]) == 4.0
  {
    assert Soma([3, 5]) == 3 + Soma([5]);
    assert Soma([5]) == 5 + Soma([]);
  }

  /** `EntityToResponse`: the artist's own fields and the mean of its scores. */
  function EntityToResponse(a: Artista): (r: ArtistaResponse)
    ensures r.id == a.id && r.nome == a.nome && r.bio == a.bio && r.fotoPerfil == a.fotoPerfil
    ensures a.avaliacoes == [] ==> r.classificacao == 0.0
    ensures a.avaliacoes != [] ==>
      r.classificacao * (|a.avaliacoes| as real) == Soma(Notas(a.avaliacoes)) as real
  {
    ArtistaResponse(a.id, a.nome, a.bio, a.fotoPerfil, Media(Notas(a.avaliacoes)))
  }

  // ---------------------------------------------------------------------------
  // Ratings

  /** The rating test of both rating handlers: this artist, this person. */
  function DaPessoa(artistaId: int, pessoaId: int): Avaliacao -> bool
  {
    (v: Avaliacao) => v.artistaId == artistaId && v.pessoaId == pessoaId
  }

  /** The score person `pessoaId` gave, as the rating GET reads it: the first rating of
      the pair, or 0 when there is none. */
  function NotaDe(a: Artista, artistaId: int, pessoaId: int): (n: int)
    ensures (forall j :: 0 <= j < |a.avaliacoes| ==> !DaPessoa(artistaId, pessoaId)(a.avaliacoes[j])) ==> n == 0
    ensures forall k ::
      (0 <= k < |a.avaliacoes| && DaPessoa(artistaId, pessoaId)(a.avaliacoes[k]) &&
       forall j :: 0 <= j < k ==> !DaPessoa(artistaId, pessoaId)(a.avaliacoes[j])) ==> n == a.avaliacoes[k].nota
  {
    match FirstIndex(a.avaliacoes, DaPessoa(artistaId, pessoaId))
    case Some(k) => a.avaliacoes[k].nota
    case None => 0
  }

  /** `Artista.AdicionarNota`: one more rating of this artist by `pessoaId`. */
  function AdicionarNota(a: Artista, pessoaId: int, nota: int): (r: Artista)
    ensures r.(avaliacoes := a.avaliacoes) == a
    ensures |r.avaliacoes| == |a.avaliacoes| + 1 && r.avaliacoes[..|a.avaliacoes|] == a.avaliacoes
    ensures r.avaliacoes[|a.avaliacoes|] == Avaliacao(a.id, pessoaId, nota)
  {
    a.(avaliacoes := a.avaliacoes + [Avaliacao(a.id, pessoaId, nota)])
  }

  /** The rating upsert: the first rating of this person for this artist gets the new
      score; when there is none, a rating is added. Nothing else of the artist changes. */
  function Avaliar(a: Artista, pessoaId: int, nota: int): (r: Artista)
    ensures r.(avaliacoes := a.avaliacoes) == a
  {
    match FirstIndex(a.avaliacoes, DaPessoa(a.id, pessoaId))
    case Some(k) => a.(avaliacoes := a.avaliacoes[k := a.avaliacoes[k].(nota := nota)])
    case None => AdicionarNota(a, pessoaId, nota)
  }

  /** A person who has rated the artist only gets that rating's score overwritten:
      the number of ratings stays, and every other rating stays as it was. */
  lemma AvaliarSobrescreve(a: Artista, pessoaId: int, nota: int, k: nat)
    requires k < |a.avaliacoes| && DaPessoa(a.id, pessoaId)(a.avaliacoes[k])
    requires forall j :: 0 <= j < k ==> !DaPessoa(a.id, pessoaId)(a.avaliacoes[j])
    ensures |Avaliar(a, pessoaId, nota).avaliacoes| == |a.avaliacoes|
    ensures Avaliar(a, pessoaId, nota).avaliacoes[k] == a.avaliacoes[k].(nota := nota)
    ensures forall j :: 0 <= j < |a.avaliacoes| && j != k ==> Avaliar(a, pessoaId, nota).avaliacoes[j] == a.avaliacoes[j]
  {
    match FirstIndex(a.avaliacoes, DaPessoa(a.id, pessoaId))
    case Some(m) =>
      assert !(m < k) && !(k < m);
    case None =>
  }

  /** A person who has not rated the artist gets exactly one new rating, after the others. */
  lemma AvaliarAcrescenta(a: Artista, pessoaId: int, nota: int)
    requires forall j :: 0 <= j < |a.avaliacoes| ==> !DaPessoa(a.id, pessoaId)(a.avaliacoes[j])
    ensures Avaliar(a, pessoaId, nota).avaliacoes == a.avaliacoes + [Avaliacao(a.id, pessoaId, nota)]
  {
  }

  /** Round trip: after rating, the person reads back the score just given. */
  lemma NotaAposAvaliar(a: Artista, pessoaId: int, nota: int)
    ensures NotaDe(Avaliar(a, pessoaId, nota), a.id, pessoaId) == nota
  {
    var p := DaPessoa(a.id, pessoaId);
    var r := Avaliar(a, pessoaId, nota);
    match FirstIndex(a.avaliacoes, p)
    case Some(k) =>
      assert r.avaliacoes[k] == a.avaliacoes[k].(nota := nota);
      assert p(r.avaliacoes[k]);
      assert forall j :: 0 <= j < k ==> r.avaliacoes[j] == a.avaliacoes[j];
    case None =>
      var n := |a.avaliacoes|;
      assert r.avaliacoes[n] == Avaliacao(a.id, pessoaId, nota);
      assert forall j :: 0 <= j < n ==> r.avaliacoes[j] == a.avaliacoes[j];
  }

  /** Rating leaves the score of every other (artist, person) pair as it was. */
  lemma AvaliarPreservaOutros(a: Artista, pessoaId: int, nota: int, artistaId: int, outro: int)
    requires artistaId != a.id || outro != pessoaId
    ensures NotaDe(Avaliar(a, pessoaId, nota), artistaId, outro) == NotaDe(a, artistaId, outro)
  {
    var q := DaPessoa(artistaId, outro);
    var r := Avaliar(a, pessoaId, nota);
    var n := |a.avaliacoes|;
    assert forall j :: 0 <= j < n ==> (q(r.avaliacoes[j]) <==> q(a.avaliacoes[j]));
    assert forall j :: 0 <= j < n && q(a.avaliacoes[j]) ==> r.avaliacoes[j] == a.avaliacoes[j];
    if |r.avaliacoes| > n {
      assert !q(r.avaliacoes[n]);
    }
    match FirstIndex(a.avaliacoes, q)
    case Some(k) =>
      assert r.avaliacoes[k] == a.avaliacoes[k];
    case None =>
  }

  /** Rating twice is rating once with the second score. */
  lemma AvaliarDuasVezes(a: Artista, pessoaId: int, nota1: int, nota2: int)
    ensures Avaliar(Avaliar(a, pessoaId, nota1), pessoaId, nota2) == Avaliar(a, pessoaId, nota2)
  {
    var p := DaPessoa(a.id, pessoaId);
    var b := Avaliar(a, pessoaId, nota1);
    match FirstIndex(a.avaliacoes, p)
    case Some(k) =>
      assert forall j :: 0 <= j < |a.avaliacoes| ==> (p(b.avaliacoes[j]) <==> p(a.avaliacoes[j]));
      assert FirstIndex(b.avaliacoes, p) == Some(k);
      assert b.avaliacoes[k := b.avaliacoes[k].(nota := nota2)] == a.avaliacoes[k := a.avaliacoes[k].(nota := nota2)];
    case None =>
      var n := |a.avaliacoes|;
      assert p(b.avaliacoes[n]);
      assert forall j :: 0 <= j < n ==> b.avaliacoes[j] == a.avaliacoes[j];
      assert FirstIndex(b.avaliacoes, p) == Some(n);
      assert b.avaliacoes[n := b.avaliacoes[n].(nota := nota2)] == a.avaliacoes + [Avaliacao(a.id, pessoaId, nota2)];
  }

  /** Rating keeps the rule "every rating carries the artist's id, at most one per person". */
  lemma AvaliarMantemValidas(a: Artista, pessoaId: int, nota: int)
    requires AvaliacoesValidas(a)
    ensures AvaliacoesValidas(Avaliar(a, pessoaId, nota))
  {
    var p := DaPessoa(a.id, pessoaId);
    var r := Avaliar(a, pessoaId, nota);
    match FirstIndex(a.avaliacoes, p)
    case Some(k) =>
      assert forall j :: 0 <= j < |a.avaliacoes| ==>
        r.avaliacoes[j].artistaId == a.avaliacoes[j].artistaId && r.avaliacoes[j].pessoaId == a.avaliacoes[j].pessoaId;
    case None =>
      var n := |a.avaliacoes|;
      assert forall j :: 0 <= j < n ==> r.avaliacoes[j] == a.avaliacoes[j];
      forall j, k | 0 <= j < k < |r.avaliacoes|
        ensures !(r.avaliacoes[j].artistaId == r.avaliacoes[k].artistaId && r.avaliacoes[j].pessoaId == r.avaliacoes[k].pessoaId)
      {
        if k == n {
          assert !p(a.avaliacoes[j]);
        }
      }
  }

  // ---------------------------------------------------------------------------
  // The caller's identity

  function ComEmail(email: string): Pessoa -> bool
  {
    (p: Pessoa) => p.email == email
  }

  /** The signed-in person: the first registered person with the e-mail of the
      caller's claim, or none when there is no claim or no such person. */
  function Identificar(pessoas: seq<Pessoa>, email: Option<string>): (r: Option<Pessoa>)
    ensures r.None? <==> email.None? || forall j :: 0 <= j < |pessoas| ==> pessoas[j].email != email.value
    ensures r.Some? ==> r.value in pessoas && r.value.email == email.value
    ensures r.Some? ==> exists k :: (0 <= k < |pessoas| && pessoas[k] == r.value &&
                                     forall j :: 0 <= j < k ==> pessoas[j].email != email.value)
  {
    if email.None? then None else RecuperarPor(pessoas, ComEmail(email.value))
  }

  /** `GET /artistas/{id}/avaliacao`: an unknown artist is NotFound before the caller's
      identity is looked at; an unidentified caller is an invalid operation; otherwise
      the caller's score, 0 when there is none. */
  function GetAvaliacao(artistas: seq<Artista>, pessoas: seq<Pessoa>, id: int, email: Option<string>)
    : (r: Reply<AvaliacaoArtistaResponse>)
    ensures r.NotFound? <==> !TemArtista(artistas, id)
    ensures r.Fault? <==> TemArtista(artistas, id) && Identificar(pessoas, email).None?
    ensures r.Fault? ==> r.exception == InvalidOperation
    ensures r.Ok? ==> exists k :: (0 <= k < |artistas| && artistas[k].id == id &&
                                   (forall j :: 0 <= j < k ==> artistas[j].id != id) &&
                                   r.body == AvaliacaoArtistaResponse(id, NotaDe(artistas[k], id, Identificar(pessoas, email).value.id)))
    ensures !r.NotFound? && !r.Fault? ==> r.Ok?
  {
    match FirstIndex(artistas, ArtistaComId(id))
    case None => NotFound
    case Some(k) =>
      match Identificar(pessoas, email)
      case None => Fault(InvalidOperation)
      case Some(p) => Ok(AvaliacaoArtistaResponse(id, NotaDe(artistas[k], id, p.id)))
  }

  /** `POST /artistas/avaliacao`: an unknown artist is NotFound; an unidentified caller
      is an invalid operation; in both cases nothing changes. Otherwise the caller's
      rating of that artist is set to the request's score, and reading it back gives
      that score. */
  method PostAvaliacao(ctx: RockHubContext, req: AvaliacaoArtistaRequest, email: Option<string>)
    returns (r: Reply<()>)
    requires ctx.Valid()
    modifies ctx
    ensures ctx.Valid()
    ensures r == Created || r == NotFound || r == Fault(InvalidOperation)
    ensures r.NotFound? <==> !TemArtista(old(ctx.artistas), req.artistaId)
    ensures r.Fault? <==> TemArtista(old(ctx.artistas), req.artistaId) && Identificar(old(ctx.pessoas), email).None?
    ensures !r.Created? ==> ctx.Conteudo() == old(ctx.Conteudo())
    ensures r.Created? ==> exists k :: (0 <= k < |old(ctx.artistas)| && old(ctx.artistas)[k].id == req.artistaId &&
      ctx.Conteudo() == old(ctx.Conteudo()).(
        artistas := old(ctx.artistas)[k := Avaliar(old(ctx.artistas)[k], Identificar(old(ctx.pessoas), email).value.id, req.nota)]))
    ensures r.Created? ==> GetAvaliacao(ctx.artistas, ctx.pessoas, req.artistaId, email)
                           == Ok(AvaliacaoArtistaResponse(req.artistaId, req.nota))
  {
    match FirstIndex(ctx.artistas, ArtistaComId(req.artistaId))
    case None =>
      r := NotFound;
    case Some(k) =>
      var pessoa := Identificar(ctx.pessoas, email);
      if pessoa.None? {
        r := Fault(InvalidOperation);
        return;
      }
      var artista := ctx.artistas[k];
      var avaliado := Avaliar(artista, pessoa.value.id, req.nota);
      AvaliarMantemValidas(artista, pessoa.value.id, req.nota);
      NotaAposAvaliar(artista, pessoa.value.id, req.nota);
      AtualizarAt(ctx.artistas, IdArtista, k, avaliado);
      ctx.AtualizarArtista(avaliado);
      FirstIndexAt(ctx.artistas, ArtistaComId(req.artistaId), k);
      r := Created;
  }

  // ---------------------------------------------------------------------------
  // Artist CRUD

  /** `GET /artistas`: one response per stored artist, in store order. The store's list
      is never absent, so this never answers NotFound. */
  function ListarArtistas(artistas: seq<Artista>): (r: Reply<seq<ArtistaResponse>>)
    ensures r.Ok? && |r.body| == |artistas|
    ensures forall i :: 0 <= i < |artistas| ==> r.body[i] == EntityToResponse(artistas[i])
  {
    Ok(seq(|artistas|, i requires 0 <= i < |artistas| => EntityToResponse(artistas[i])))
  }

  /** The name test of the artist lookup: the stored name, trimmed, equals the given
      name ignoring case. The given name is not trimmed. */
  function NomeArtistaIgual(nome: string): Artista -> bool
  {
    (a: Artista) => EqualsIgnoreCase(Trim(a.nome), nome)
  }

  /** `GET /artistas/{nome}`: the first stored artist whose trimmed name matches. */
  function GetArtistaPorNome(artistas: seq<Artista>, nome: string): (r: Reply<ArtistaResponse>)
    ensures r.Ok? || r.NotFound?
    ensures r.NotFound? <==> forall j :: 0 <= j < |artistas| ==> !EqualsIgnoreCase(Trim(artistas[j].nome), nome)
    ensures r.Ok? ==> exists k :: (0 <= k < |artistas| && EqualsIgnoreCase(Trim(artistas[k].nome), nome) &&
                                   (forall j :: 0 <= j < k ==> !EqualsIgnoreCase(Trim(artistas[j].nome), nome)) &&
                                   r.body == EntityToResponse(artistas[k]))
  {
    match RecuperarPor(artistas, NomeArtistaIgual(nome))
    case Some(a) => Ok(EntityToResponse(a))
    case None => NotFound
  }

  /** Upper-casing neither creates nor removes whitespace. */
  lemma UpperCharEspaco(c: char)
    ensures IsWhiteSpace(UpperChar(c)) <==> IsWhiteSpace(c)
  {
  }

  /** Since only the stored name is trimmed, a name given with leading whitespace
      never finds an artist. */
  lemma NomeComEspacoNaoEncontra(artistas: seq<Artista>, nome: string)
    requires nome != [] && IsWhiteSpace(nome[0])
    ensures GetArtistaPorNome(artistas, nome) == NotFound
  {
    forall j | 0 <= j < |artistas| ensures !EqualsIgnoreCase(Trim(artistas[j].nome), nome) {
      var t := Trim(artistas[j].nome);
      if t != [] && |t| == |nome| {
        UpperCharEspaco(t[0]);
        UpperCharEspaco(nome[0]);
        assert ToUpper(t)[0] != ToUpper(nome)[0];
      }
    }
  }

  /** The file name `<carimbo>.<base>.jpeg`, with every `/` of `base` made `-`. */
  function ArquivoJpeg(carimbo: string, base: string): (r: string)
    ensures |r| == |carimbo| + 1 + |base| + 5
    ensures r[..|carimbo|] == carimbo && r[|carimbo|] == '.' && r[|r| - 5..] == ".jpeg"
    ensures forall i :: 0 <= i < |base| ==> r[|carimbo| + 1 + i] == (if base[i] == '/' then '-' else base[i])
    ensures '/' !in carimbo ==> '/' !in r
  {
    carimbo + "." + Replace(base, '/', "-") + ".jpeg"
  }

  /** The stored file name of a profile photo: the time stamp, the trimmed name with
      every `/` made `-`, and the `.jpeg` extension. */
  function NomeArquivoFoto(carimbo: string, nome: string): (r: string)
    ensures |r| == |carimbo| + 1 + |Trim(nome)| + 5
    ensures r[..|carimbo|] == carimbo && r[|carimbo|] == '.' && r[|r| - 5..] == ".jpeg"
    ensures forall i :: 0 <= i < |Trim(nome)| ==>
      r[|carimbo| + 1 + i] == (if Trim(nome)[i] == '/' then '-' else Trim(nome)[i])
    ensures '/' !in carimbo ==> '/' !in r
  {
    ArquivoJpeg(carimbo, Trim(nome))
  }

  /** `POST /artistas`: without a photo the base64 decoding throws and nothing is
      saved; otherwise one artist with the request's (untrimmed) name and bio, no
      ratings, and the photo's path under `/FotoPerfil/`. `carimbo` is the time stamp
      the file name is built from. */
  method PostArtista(ctx: RockHubContext, req: ArtistaRequest, carimbo: string) returns (r: Reply<()>)
    requires ctx.Valid()
    modifies ctx
    ensures ctx.Valid()
    ensures r == Ok(()) || r == Fault(ArgumentNull)
    ensures r.Fault? <==> req.fotoPerfil.None?
    ensures r.Fault? ==> ctx.Conteudo() == old(ctx.Conteudo())
    ensures r.Ok? ==> ctx.Conteudo() == old(ctx.Conteudo()).(
      artistas := old(ctx.artistas) + [Artista(old(ctx.proximoArtistaId), req.nome, req.bio,
                                               "/FotoPerfil/" + NomeArquivoFoto(carimbo, req.nome), [])],
      proximoArtistaId := old(ctx.proximoArtistaId) + 1)
  {
    if req.fotoPerfil.None? {
      r := Fault(ArgumentNull);
      return;
    }
    var imagemArtista := NomeArquivoFoto(carimbo, req.nome);
    var _ := ctx.AdicionarArtista(req.nome, req.bio, "/FotoPerfil/" + imagemArtista);
    r := Ok(());
  }

  /** `DELETE /artistas/{id}`: an unknown id changes nothing; otherwise exactly that
      artist is removed and, by the cascade, exactly its songs. */
  method DeleteArtista(ctx: RockHubContext, id: int) returns (r: Reply<()>)
    requires ctx.Valid()
    modifies ctx
    ensures ctx.Valid()
    ensures r == NoContent || r == NotFound
    ensures r.NotFound? <==> !TemArtista(old(ctx.artistas), id)
    ensures r.NotFound? ==> ctx.Conteudo() == old(ctx.Conteudo())
    ensures r.NoContent? ==> exists k :: (0 <= k < |old(ctx.artistas)| && old(ctx.artistas)[k].id == id &&
                                          ctx.Conteudo() == old(ctx.Conteudo()).(
                                            artistas := old(ctx.artistas)[..k] + old(ctx.artistas)[k + 1..],
                                            musicas := CascataArtista(old(ctx.musicas), id)))
  {
    match FirstIndex(ctx.artistas, ArtistaComId(id))
    case None =>
      r := NotFound;
    case Some(k) =>
      DeletarAt(ctx.artistas, IdArtista, k);
      ctx.DeletarArtista(id);
      r := NoContent;
  }

  /** `PUT /artistas`: an unknown id changes nothing; otherwise only the artist's name
      and bio change: its id, photo, ratings and songs stay. */
  method PutArtista(ctx: RockHubContext, req: ArtistaRequestEdit) returns (r: Reply<()>)
    requires ctx.Valid()
    modifies ctx
    ensures ctx.Valid()
    ensures r == Ok(()) || r == NotFound
    ensures r.NotFound? <==> !TemArtista(old(ctx.artistas), req.id)
    ensures r.NotFound? ==> ctx.Conteudo() == old(ctx.Conteudo())
    ensures r.Ok? ==> exists k :: (0 <= k < |old(ctx.artistas)| && old(ctx.artistas)[k].id == req.id &&
                                   ctx.Conteudo() == old(ctx.Conteudo()).(
                                     artistas := old(ctx.artistas)[k := old(ctx.artistas)[k].(nome := req.nome, bio := req.bio)]))
  {
    match FirstIndex(ctx.artistas, ArtistaComId(req.id))
    case None =>
      r := NotFound;
    case Some(k) =>
      var a := ctx.artistas[k].(nome := req.nome, bio := req.bio);
      AtualizarAt(ctx.artistas, IdArtista, k, a);
      ctx.AtualizarArtista(a);
      r := Ok(());
  }

  // ---------------------------------------------------------------------------
  // TransformarNomeArtista

  predicate MaiusculaOuDigito(c: char)
  {
    'A' <= c <= 'Z' || '0' <= c <= '9'
  }

  /** `TransformarNomeArtista`: upper-case, keep only `A`-`Z` and `0`-`9`, then replace
      every space by `TICAR`. */
  function TransformarNomeArtista(nome: string): (r: string)
    ensures forall i :: 0 <= i < |r| ==> MaiusculaOuDigito(r[i])
    ensures |r| <= |nome|
  {
    Replace(Filter(ToUpper(nome), MaiusculaOuDigito), ' ', "TICAR")
  }

  /** The space replacement never fires: the spaces are already gone. */
  lemma TicarNuncaOcorre(nome: string)
    ensures TransformarNomeArtista(nome) == Filter(ToUpper(nome), MaiusculaOuDigito)
    ensures forall i :: 0 <= i < |TransformarNomeArtista(nome)| ==> TransformarNomeArtista(nome)[i] != ' '
  {
    var f := Filter(ToUpper(nome), MaiusculaOuDigito);
    assert ' ' !in f by {
      forall i | 0 <= i < |f| ensures f[i] != ' ' {
        assert MaiusculaOuDigito(f[i]);
      }
    }
  }

  /** The strings `TransformarNomeArtista` leaves as they are are exactly those made of
      `A`-`Z` and `0`-`9` only. */
  lemma PontosFixos(nome: string)
    ensures TransformarNomeArtista(nome) == nome <==> forall i :: 0 <= i < |nome| ==> MaiusculaOuDigito(nome[i])
  {
    if forall i :: 0 <= i < |nome| ==> MaiusculaOuDigito(nome[i]) {
      assert ToUpper(nome) == nome;
      FilterAll(nome, MaiusculaOuDigito);
      TicarNuncaOcorre(nome);
    }
  }

  /** Applying `TransformarNomeArtista` twice is applying it once. */
  lemma TransformarIdempotente(nome: string)
    ensures TransformarNomeArtista(TransformarNomeArtista(nome)) == TransformarNomeArtista(nome)
  {
    PontosFixos(TransformarNomeArtista(nome));
  }
}
